/** The suppliers screen: search, sorting by a column, pagination and the
    create / edit form. */
module SuppliersManager {
  import opened Types
  import Text
  import Seqs
  import Sorting
  import ListView
  import App

  // ---------------------------------------------------------------------
  // Search

  /** A supplier is kept when its name or category contains the term,
      ignoring case, or its (non-empty) document contains the term as
      typed. `lower` is the character case mapping. */
  predicate Matches(s: Supplier, term: string, lower: char -> char) {
    var t := Text.MapChars(lower, term);
    Text.Contains(Text.MapChars(lower, s.name), t)
    || Text.Contains(Text.MapChars(lower, s.category), t)
    || (s.document != "" && Text.Contains(s.document, term))
  }

  /** `filteredSuppliers`. */
  function Filtered(s: seq<Supplier>, term: string, lower: char -> char): (r: seq<Supplier>)
    ensures |r| <= |s|
    ensures forall x :: x in r <==> x in s && Matches(x, term, lower)
  {
    if |s| == 0 then []
    else
      var front := Filtered(s[..|s| - 1], term, lower);
      var x := s[|s| - 1];
      assert forall y :: y in s <==> y in s[..|s| - 1] || y == x;
      if Matches(x, term, lower) then front + [x] else front
  }

  /** Filtering keeps the list order: filtering two lists one after the
      other is filtering their concatenation. */
  lemma {:induction false} FilteredKeepsOrder(a: seq<Supplier>, b: seq<Supplier>, term: string, lower: char -> char)
    ensures Filtered(a + b, term, lower) == Filtered(a, term, lower) + Filtered(b, term, lower)
  {
    if |b| == 0 {
      assert a + b == a;
    } else {
      var n := |b| - 1;
      assert (a + b)[..|a + b| - 1] == a + b[..n];
      FilteredKeepsOrder(a, b[..n], term, lower);
    }
  }

  /** An empty search box shows every supplier. */
  lemma {:induction false} EmptySearchKeepsAll(s: seq<Supplier>, lower: char -> char)
    ensures Filtered(s, "", lower) == s
  {
    if |s| > 0 {
      var n := |s| - 1;
      EmptySearchKeepsAll(s[..n], lower);
      assert Text.MapChars(lower, "") == "";
      Text.EmptyIsContained(Text.MapChars(lower, s[n].name));
      assert Matches(s[n], "", lower);
      assert s[..n] + [s[n]] == s;
    }
  }

  // ---------------------------------------------------------------------
  // Sorting

  /** The columns with a sort button. */
  datatype SortKey = Name | Category | Rating

  /** `a[sortConfig.key] ?? ''`: text columns compare as text, the rating
      as a number. */
  function KeyValue(key: SortKey, s: Supplier): Sorting.SortValue {
    match key
    case Name => Sorting.Str(s.name)
    case Category => Sorting.Str(s.category)
    case Rating => Sorting.Num(s.rating)
  }

  function SortKeyOf(key: SortKey): Supplier -> Sorting.SortValue {
    s => KeyValue(key, s)
  }

  const InitialSort: Option<ListView.SortConfig<SortKey>> := Some(ListView.SortConfig(Name, Sorting.Asc))

  // ---------------------------------------------------------------------
  // The form

  /** The form's fields (`Partial<Supplier>` without the id). */
  datatype SupplierForm = SupplierForm(
    name: string,
    category: string,
    email: string,
    phone: string,
    document: string,
    contactPerson: Option<string>,
    website: Option<string>,
    rating: real)

  /** The empty form `handleOpenCreate` shows. */
  const EmptyForm := SupplierForm("", "Geral", "", "", "", Some(""), Some(""), 5.0)

  /** `setFormData(supplier)` when editing. */
  function FormOf(s: Supplier): SupplierForm {
    SupplierForm(s.name, s.category, s.email, s.phone, s.document, s.contactPerson, s.website, s.rating)
  }

  /** Save needs a name and an e-mail. */
  predicate CanSave(f: SupplierForm) {
    f.name != "" && f.email != ""
  }

  /** `{ ...editingSupplier, ...formData }`: every field from the form, the
      id from the record being edited. */
  function Merged(s: Supplier, f: SupplierForm): (r: Supplier)
    ensures r.id == s.id
  {
    Supplier(s.id, f.name, f.category, f.email, f.phone, f.document, f.contactPerson, f.website, f.rating)
  }

  /** The form and the merge are inverse: merging a record's own form gives
      the record back, and the merged record's form is the form saved. */
  lemma MergeRoundTrip(s: Supplier, f: SupplierForm)
    ensures Merged(s, FormOf(s)) == s
    ensures FormOf(Merged(s, f)) == f
  {
  }

  /** The new supplier: the form's fields, the id `S-<code>` from a random
      four-digit code, and a rating of 5 whatever the form says. */
  function NewSupplier(f: SupplierForm, code: nat): (r: Supplier)
    ensures r.rating == 5.0
    ensures FormOf(r) == f.(rating := 5.0)
    ensures Text.IsPrefix("S-", r.id)
  {
    Supplier("S-" + Text.NatToDecimal(code), f.name, f.category, f.email, f.phone, f.document, f.contactPerson, f.website, 5.0)
  }

  // ---------------------------------------------------------------------
  // The screen

  class SuppliersScreen {
    var searchTerm: string
    var sortConfig: Option<ListView.SortConfig<SortKey>>
    var form: SupplierForm
    var editing: Option<Supplier>
    const pager: ListView.Pager

    predicate Valid()
      reads this, pager
    {
      pager.Valid()
    }

    /** The screen as it opens: page 1 of 25 rows, sorted by name. */
    constructor ()
      ensures Valid() && fresh(pager)
      ensures searchTerm == "" && sortConfig == InitialSort && form == EmptyForm && editing.None?
      ensures pager.currentPage == 1 && pager.itemsPerPage == 25
    {
      searchTerm := "";
      sortConfig := InitialSort;
      form := EmptyForm;
      editing := None;
      pager := new ListView.Pager(25);
    }

    /** Typing a search term; a changed term sends the list to page 1. */
    method SetSearchTerm(t: string)
      requires Valid()
      modifies this, pager
      ensures Valid() && searchTerm == t && pager.itemsPerPage == old(pager.itemsPerPage)
      ensures pager.currentPage == if t != old(searchTerm) then 1 else old(pager.currentPage)
      ensures sortConfig == old(sortConfig) && form == old(form) && editing == old(editing)
    {
      if t != searchTerm {
        pager.ResetPage();
      }
      searchTerm := t;
    }

    /** Choosing a page size; a changed size sends the list to page 1. */
    method SetItemsPerPage(k: int)
      requires Valid() && k >= 1
      modifies pager
      ensures Valid() && pager.itemsPerPage == k
      ensures pager.currentPage == if k != old(pager.itemsPerPage) then 1 else old(pager.currentPage)
    {
      if k != pager.itemsPerPage {
        pager.SetItemsPerPage(k);
      }
    }

    /** `requestSort(key)`. */
    method RequestSort(key: SortKey)
      modifies this
      ensures sortConfig == Some(ListView.RequestSort(old(sortConfig), key))
      ensures searchTerm == old(searchTerm) && form == old(form) && editing == old(editing)
    {
      sortConfig := Some(ListView.RequestSort(sortConfig, key));
    }

    /** `sortedSuppliers`, `paginatedSuppliers` and `totalPages`: the
      filtered suppliers reordered on a copy by the sort column, the slice
      of the current page, and the page count. */
    method Rows(suppliers: seq<Supplier>, lower: char -> char)
      returns (list: seq<Supplier>, page: seq<Supplier>, totalPages: nat)
      requires Valid()
      ensures multiset(list) == multiset(Filtered(suppliers, searchTerm, lower))
      ensures sortConfig.Some? ==> Sorting.SortedBy(list, SortKeyOf(sortConfig.value.key), sortConfig.value.direction)
      ensures sortConfig.None? ==> list == Filtered(suppliers, searchTerm, lower)
      ensures page == pager.Shown(list)
      ensures totalPages == ListView.TotalPages(|list|, pager.itemsPerPage)
    {
      list := Filtered(suppliers, searchTerm, lower);
      if sortConfig.Some? {
        list := Sorting.SortedCopy(list, SortKeyOf(sortConfig.value.key), sortConfig.value.direction);
      }
      page := pager.Shown(list);
      totalPages := ListView.TotalPages(|list|, pager.itemsPerPage);
    }

    /** The "previous page" button. */
    method PrevPage()
      requires Valid()
      modifies pager
      ensures Valid() && pager.currentPage == ListView.PrevPage(old(pager.currentPage))
      ensures pager.itemsPerPage == old(pager.itemsPerPage)
    {
      pager.Prev();
    }

    /** The "next page" button, given the page count of the shown list. */
    method NextPage(totalPages: nat)
      requires Valid()
      modifies pager
      ensures Valid() && pager.currentPage == ListView.NextPage(old(pager.currentPage), totalPages)
      ensures pager.itemsPerPage == old(pager.itemsPerPage)
    {
      pager.Next(totalPages);
    }

    /** `handleOpenCreate`. */
    method OpenCreate()
      modifies this
      ensures editing.None? && form == EmptyForm
      ensures searchTerm == old(searchTerm) && sortConfig == old(sortConfig)
    {
      editing := None;
      form := EmptyForm;
    }

    /** `handleEdit(supplier)`. */
    method Edit(s: Supplier)
      modifies this
      ensures editing == Some(s) && form == FormOf(s)
      ensures searchTerm == old(searchTerm) && sortConfig == old(sortConfig)
    {
      editing := Some(s);
      form := FormOf(s);
    }

    /** Typing into the form. */
    method SetForm(f: SupplierForm)
      modifies this
      ensures form == f && editing == old(editing)
      ensures searchTerm == old(searchTerm) && sortConfig == old(sortConfig)
    {
      form := f;
    }

    /** `handleSave`: nothing without a name and an e-mail; otherwise the
      merged record replaces the edited one, or a new supplier with the
      given code is added. */
    method Save(erp: App.Erp, code: nat)
      requires 1000 <= code <= 9999
      modifies erp
      ensures !CanSave(form) ==> erp.suppliers == old(erp.suppliers)
      ensures CanSave(form) && editing.Some? ==>
        erp.suppliers == Seqs.ReplaceById(old(erp.suppliers), Merged(editing.value, form), App.SupplierId)
      ensures CanSave(form) && editing.None? ==> erp.suppliers == [NewSupplier(form, code)] + old(erp.suppliers)
      ensures erp.orders == old(erp.orders) && erp.payables == old(erp.payables)
      ensures erp.receivables == old(erp.receivables) && erp.materials == old(erp.materials)
    {
      if !CanSave(form) {
        return;
      }
      if editing.Some? {
        erp.UpdateSupplier(Merged(editing.value, form));
      } else {
        erp.CreateSupplier(NewSupplier(form, code));
      }
    }
  }

  /** Opening a supplier and saving the form unchanged leaves the list as
      it was; saving an edit keeps every id in its place. */
  lemma EditRoundTrip(suppliers: seq<Supplier>, k: int, f: SupplierForm)
    requires Seqs.DistinctIds(suppliers, App.SupplierId) && 0 <= k < |suppliers|
    ensures Seqs.ReplaceById(suppliers, Merged(suppliers[k], FormOf(suppliers[k])), App.SupplierId) == suppliers
    ensures Seqs.Ids(Seqs.ReplaceById(suppliers, Merged(suppliers[k], f), App.SupplierId), App.SupplierId)
            == Seqs.Ids(suppliers, App.SupplierId)
  {
    Seqs.ReplaceByIdUnique(suppliers, suppliers[k], App.SupplierId, k);
    assert suppliers[k := suppliers[k]] == suppliers;
    Seqs.ReplaceByIdEffect(suppliers, Merged(suppliers[k], f), App.SupplierId);
  }
}
