/** The materials catalogue screen: search, sorting by a column,
    pagination and the create / edit form. */
module MaterialsManager {
  import opened Types
  import Text
  import Seqs
  import Sorting
  import ListView
  import App

  // ---------------------------------------------------------------------
  // Search

  /** A material is kept when its name or category contains the term,
      ignoring case. `lower` is the character case mapping. */
  predicate Matches(s: Material, term: string, lower: char -> char) {
    var t := Text.MapChars(lower, term);
    Text.Contains(Text.MapChars(lower, s.name), t) || Text.Contains(Text.MapChars(lower, s.category), t)
  }

  /** `filteredMaterials`. */
  function Filtered(s: seq<Material>, term: string, lower: char -> char): (r: seq<Material>)
    ensures |r| <= |s|
    ensures forall x :: x in r <==> x in s && Matches(x, term, lower)
  {
    if |s| == 0 then []
    else
      var front := Filtered(s[..|s| - 1], term, lower);
      var x := s[|s| - 1];
      assert forall y :: y in s <==> y in s[..|s| - 1] || y == x;
      if Matches(x, term, lower) then front + [x] else front
  }

  /** Filtering keeps the list order: filtering two lists one after the
      other is filtering their concatenation. */
  lemma {:induction false} FilteredKeepsOrder(a: seq<Material>, b: seq<Material>, term: string, lower: char -> char)
    ensures Filtered(a + b, term, lower) == Filtered(a, term, lower) + Filtered(b, term, lower)
  {
    if |b| == 0 {
      assert a + b == a;
    } else {
      var n := |b| - 1;
      assert (a + b)[..|a + b| - 1] == a + b[..n];
      FilteredKeepsOrder(a, b[..n], term, lower);
    }
  }

  /** An empty search box shows every material. */
  lemma {:induction false} EmptySearchKeepsAll(s: seq<Material>, lower: char -> char)
    ensures Filtered(s, "", lower) == s
  {
    if |s| > 0 {
      var n := |s| - 1;
      EmptySearchKeepsAll(s[..n], lower);
      assert Text.MapChars(lower, "") == "";
      Text.EmptyIsContained(Text.MapChars(lower, s[n].name));
      assert Matches(s[n], "", lower);
      assert s[..n] + [s[n]] == s;
    }
  }

  // ---------------------------------------------------------------------
  // Sorting

  /** The columns with a sort button. */
  datatype SortKey = Name | Category | Unit

  /** `a[sortConfig.key] ?? ''`: the three columns are text. */
  function KeyValue(key: SortKey, s: Material): Sorting.SortValue {
    match key
    case Name => Sorting.Str(s.name)
    case Category => Sorting.Str(s.category)
    case Unit => Sorting.Str(s.unit)
  }

  function SortKeyOf(key: SortKey): Material -> Sorting.SortValue {
    s => KeyValue(key, s)
  }

  const InitialSort: Option<ListView.SortConfig<SortKey>> := Some(ListView.SortConfig(Name, Sorting.Asc))

  // ---------------------------------------------------------------------
  // The form

  /** The form's fields (`Partial<Material>` without the id). */
  datatype MaterialForm = MaterialForm(
    name: string,
    category: string,
    unit: string,
    description: Option<string>,
    minStock: Option<real>)

  /** The empty form `handleOpenCreate` shows. */
  const EmptyForm := MaterialForm("", "Básico", "un", Some(""), Some(0.0))

  /** `setFormData(material)` when editing. */
  function FormOf(s: Material): MaterialForm {
    MaterialForm(s.name, s.category, s.unit, s.description, s.minStock)
  }

  /** Save needs a name and a category. */
  predicate CanSave(f: MaterialForm) {
    f.name != "" && f.category != ""
  }

  /** `{ ...editingMaterial, ...formData }`: every field from the form, the
      id from the record being edited. */
  function Merged(s: Material, f: MaterialForm): (r: Material)
    ensures r.id == s.id
  {
    Material(s.id, f.name, f.category, f.unit, f.description, f.minStock)
  }

  /** The form and the merge are inverse: merging a record's own form gives
      the record back, and the merged record's form is the form saved. */
  lemma MergeRoundTrip(s: Material, f: MaterialForm)
    ensures Merged(s, FormOf(s)) == s
    ensures FormOf(Merged(s, f)) == f
  {
  }

  /** The new material: the form's fields and the id `M-<code>` from a
      random four-digit code. */
  function NewMaterial(f: MaterialForm, code: nat): (r: Material)
    ensures FormOf(r) == f
    ensures Text.IsPrefix("M-", r.id)
  {
    Material("M-" + Text.NatToDecimal(code), f.name, f.category, f.unit, f.description, f.minStock)
  }

  // ---------------------------------------------------------------------
  // The screen

  class MaterialsScreen {
    var searchTerm: string
    var sortConfig: Option<ListView.SortConfig<SortKey>>
    var form: MaterialForm
    var editing: Option<Material>
    const pager: ListView.Pager

    predicate Valid()
      reads this, pager
    {
      pager.Valid()
    }

    /** The screen as it opens: page 1 of 25 rows, sorted by name. */
    constructor ()
      ensures Valid() && fresh(pager)
      ensures searchTerm == "" && sortConfig == InitialSort && form == EmptyForm && editing.None?
      ensures pager.currentPage == 1 && pager.itemsPerPage == 25
    {
      searchTerm := "";
      sortConfig := InitialSort;
      form := EmptyForm;
      editing := None;
      pager := new ListView.Pager(25);
    }

    /** Typing a search term; a changed term sends the list to page 1. */
    method SetSearchTerm(t: string)
      requires Valid()
      modifies this, pager
      ensures Valid() && searchTerm == t && pager.itemsPerPage == old(pager.itemsPerPage)
      ensures pager.currentPage == if t != old(searchTerm) then 1 else old(pager.currentPage)
      ensures sortConfig == old(sortConfig) && form == old(form) && editing == old(editing)
    {
      if t != searchTerm {
        pager.ResetPage();
      }
      searchTerm := t;
    }

    /** Choosing a page size; a changed size sends the list to page 1. */
    method SetItemsPerPage(k: int)
      requires Valid() && k >= 1
      modifies pager
      ensures Valid() && pager.itemsPerPage == k
      ensures pager.currentPage == if k != old(pager.itemsPerPage) then 1 else old(pager.currentPage)
    {
      if k != pager.itemsPerPage {
        pager.SetItemsPerPage(k);
      }
    }

    /** `requestSort(key)`. */
    method RequestSort(key: SortKey)
      modifies this
      ensures sortConfig == Some(ListView.RequestSort(old(sortConfig), key))
      ensures searchTerm == old(searchTerm) && form == old(form) && editing == old(editing)
    {
      sortConfig := Some(ListView.RequestSort(sortConfig, key));
    }

    /** `sortedMaterials`, `paginatedMaterials` and `totalPages`: the
      filtered materials reordered on a copy by the sort column, the slice
      of the current page, and the page count. */
    method Rows(materials: seq<Material>, lower: char -> char)
      returns (list: seq<Material>, page: seq<Material>, totalPages: nat)
      requires Valid()
      ensures multiset(list) == multiset(Filtered(materials, searchTerm, lower))
      ensures sortConfig.Some? ==> Sorting.SortedBy(list, SortKeyOf(sortConfig.value.key), sortConfig.value.direction)
      ensures sortConfig.None? ==> list == Filtered(materials, searchTerm, lower)
      ensures page == pager.Shown(list)
      ensures totalPages == ListView.TotalPages(|list|, pager.itemsPerPage)
    {
      list := Filtered(materials, searchTerm, lower);
      if sortConfig.Some? {
        list := Sorting.SortedCopy(list, SortKeyOf(sortConfig.value.key), sortConfig.value.direction);
      }
      page := pager.Shown(list);
      totalPages := ListView.TotalPages(|list|, pager.itemsPerPage);
    }

    /** The "previous page" button. */
    method PrevPage()
      requires Valid()
      modifies pager
      ensures Valid() && pager.currentPage == ListView.PrevPage(old(pager.currentPage))
      ensures pager.itemsPerPage == old(pager.itemsPerPage)
    {
      pager.Prev();
    }

    /** The "next page" button, given the page count of the shown list. */
    method NextPage(totalPages: nat)
      requires Valid()
      modifies pager
      ensures Valid() && pager.currentPage == ListView.NextPage(old(pager.currentPage), totalPages)
      ensures pager.itemsPerPage == old(pager.itemsPerPage)
    {
      pager.Next(totalPages);
    }

    /** `handleOpenCreate`. */
    method OpenCreate()
      modifies this
      ensures editing.None? && form == EmptyForm
      ensures searchTerm == old(searchTerm) && sortConfig == old(sortConfig)
    {
      editing := None;
      form := EmptyForm;
    }

    /** `handleEdit(material)`. */
    method Edit(s: Material)
      modifies this
      ensures editing == Some(s) && form == FormOf(s)
      ensures searchTerm == old(searchTerm) && sortConfig == old(sortConfig)
    {
      editing := Some(s);
      form := FormOf(s);
    }

    /** Typing into the form. */
    method SetForm(f: MaterialForm)
      modifies this
      ensures form == f && editing == old(editing)
      ensures searchTerm == old(searchTerm) && sortConfig == old(sortConfig)
    {
      form := f;
    }

    /** `handleSave`: nothing without a name and a category; otherwise the
      merged record replaces the edited one, or a new material with the
      given code is added. */
    method Save(erp: App.Erp, code: nat)
      requires 1000 <= code <= 9999
      modifies erp
      ensures !CanSave(form) ==> erp.materials == old(erp.materials)
      ensures CanSave(form) && editing.Some? ==>
        erp.materials == Seqs.ReplaceById(old(erp.materials), Merged(editing.value, form), App.MaterialId)
      ensures CanSave(form) && editing.None? ==> erp.materials == [NewMaterial(form, code)] + old(erp.materials)
      ensures erp.orders == old(erp.orders) && erp.payables == old(erp.payables)
      ensures erp.receivables == old(erp.receivables) && erp.suppliers == old(erp.suppliers)
    {
      if !CanSave(form) {
        return;
      }
      if editing.Some? {
        erp.UpdateMaterial(Merged(editing.value, form));
      } else {
        erp.CreateMaterial(NewMaterial(form, code));
      }
    }
  }

  /** Opening a material and saving the form unchanged leaves the list as
      it was; saving an edit keeps every id in its place. */
  lemma EditRoundTrip(materials: seq<Material>, k: int, f: MaterialForm)
    requires Seqs.DistinctIds(materials, App.MaterialId) && 0 <= k < |materials|
    ensures Seqs.ReplaceById(materials, Merged(materials[k], FormOf(materials[k])), App.MaterialId) == materials
    ensures Seqs.Ids(Seqs.ReplaceById(materials, Merged(materials[k], f), App.MaterialId), App.MaterialId)
            == Seqs.Ids(materials, App.MaterialId)
  {
    Seqs.ReplaceByIdUnique(materials, materials[k], App.MaterialId, k);
    assert materials[k := materials[k]] == materials;
    Seqs.ReplaceByIdEffect(materials, Merged(materials[k], f), App.MaterialId);
  }
}
