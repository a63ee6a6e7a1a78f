/**
 * The profile page's address book: an ordered list of addresses, one of them flagged
 * default, kept in the page's state and written back to local storage after every change.
 */
module AddressBook {
  import opened Wrappers

  datatype Address = Address(
    id: string, name: string, fullName: string, street: string, city: string,
    state: string, zipCode: string, phone: string, isDefault: bool)

  /** The blank form. */
  const EmptyAddress := Address("", "", "", "", "", "", "", "", false)

  /** The number of addresses flagged default. */
  function DefaultCount(a: seq<Address>): nat
  {
    if a == [] then 0 else (if a[0].isDefault then 1 else 0) + DefaultCount(a[1..])
  }

  /** Exactly one default when the list is non-empty, none when it is empty. */
  predicate SingleDefault(a: seq<Address>)
  {
    DefaultCount(a) == if a == [] then 0 else 1
  }

  /** An address with its default flag cleared: "the same address, flags aside". */
  function Unflagged(x: Address): Address
  {
    x.(isDefault := false)
  }

  // ----- the list operations -----

  /** deleteAddress: splice out entry `i`; if it was the default and others remain, the first remaining one becomes default. */
  function DeleteAt(a: seq<Address>, i: int): seq<Address>
    requires 0 <= i < |a|
  {
    var rest := a[..i] + a[i + 1..];
    if a[i].isDefault && |rest| > 0 then rest[0 := rest[0].(isDefault := true)] else rest
  }

  /** setDefaultAddress: entry `i` is flagged default and every other entry is not. */
  function WithDefaultAt(a: seq<Address>, i: int): seq<Address>
  {
    seq(|a|, j requires 0 <= j < |a| => a[j].(isDefault := j == i))
  }

  /** Every entry's default flag cleared. */
  function Demoted(a: seq<Address>): seq<Address>
  {
    seq(|a|, j requires 0 <= j < |a| => a[j].(isDefault := false))
  }

  /** The address handleSubmit saves: the form, with a fresh id when its id is empty. */
  function WithId(form: Address, freshId: string): Address
  {
    if form.id != "" then form else form.(id := freshId)
  }

  /** The add branch: a first address, or one flagged default, is appended as the only default; any other is appended as it is. */
  function SaveNew(a: seq<Address>, x: Address): seq<Address>
  {
    if |a| == 0 || x.isDefault then Demoted(a) + [x.(isDefault := true)] else a + [x]
  }

  /** The edit branch: the entry at `index` is replaced; the flags of the others are left alone. */
  function SaveEdit(a: seq<Address>, index: int, x: Address): seq<Address>
  {
    seq(|a|, j requires 0 <= j < |a| => if j == index then x else a[j])
  }

  /** handleSubmit's new list. */
  function Saved(a: seq<Address>, editingIndex: int, form: Address, freshId: string): seq<Address>
  {
    var x := WithId(form, freshId);
    if editingIndex >= 0 then SaveEdit(a, editingIndex, x) else SaveNew(a, x)
  }

  // ----- counting defaults -----

  lemma {:induction false} DefaultCountAppend(x: seq<Address>, y: seq<Address>)
    ensures DefaultCount(x + y) == DefaultCount(x) + DefaultCount(y)
  {
    if x == [] {
      assert x + y == y;
    } else {
      assert (x + y)[1..] == x[1..] + y;
      DefaultCountAppend(x[1..], y);
    }
  }

  /** The default count of a list is fixed by which indices are flagged. */
  lemma {:induction false} DefaultCountNone(a: seq<Address>)
    requires forall j :: 0 <= j < |a| ==> !a[j].isDefault
    ensures DefaultCount(a) == 0
  {
    if a != [] {
      DefaultCountNone(a[1..]);
    }
  }

  lemma {:induction false} DefaultCountOne(a: seq<Address>, i: int)
    requires 0 <= i < |a| && a[i].isDefault
    requires forall j :: 0 <= j < |a| && j != i ==> !a[j].isDefault
    ensures DefaultCount(a) == 1
  {
    if i == 0 {
      DefaultCountNone(a[1..]);
    } else {
      DefaultCountOne(a[1..], i - 1);
    }
  }

  /** A list satisfying the invariant has one flagged index and only one. */
  lemma {:induction false} SingleDefaultIndex(a: seq<Address>) returns (i: int)
    requires SingleDefault(a) && a != []
    ensures 0 <= i < |a| && a[i].isDefault
    ensures forall j :: 0 <= j < |a| && j != i ==> !a[j].isDefault
  {
    if a[0].isDefault {
      i := 0;
      NoDefaultAll(a[1..]);
    } else {
      var k := SingleDefaultIndex(a[1..]);
      i := k + 1;
    }
  }

  lemma {:induction false} NoDefaultAll(a: seq<Address>)
    requires DefaultCount(a) == 0
    ensures forall j :: 0 <= j < |a| ==> !a[j].isDefault
  {
    if a != [] {
      NoDefaultAll(a[1..]);
    }
  }

  /** The default count splits around any index. */
  lemma {:induction false} DefaultCountSplit(a: seq<Address>, i: int)
    requires 0 <= i < |a|
    ensures DefaultCount(a) == DefaultCount(a[..i]) + (if a[i].isDefault then 1 else 0) + DefaultCount(a[i + 1..])
  {
    if i > 0 {
      DefaultCountSplit(a[1..], i - 1);
      assert a[..i][1..] == a[1..][..i - 1];
      assert a[1..][i - 1 + 1..] == a[i + 1..];
    }
  }

  /** Replacing one entry changes the default count by the change of that entry's flag. */
  lemma DefaultCountReplace(a: seq<Address>, i: int, x: Address)
    requires 0 <= i < |a|
    ensures DefaultCount(SaveEdit(a, i, x))
         == DefaultCount(a) - (if a[i].isDefault then 1 else 0) + (if x.isDefault then 1 else 0)
  {
    var r := SaveEdit(a, i, x);
    assert r[..i] == a[..i];
    assert r[i + 1..] == a[i + 1..];
    DefaultCountSplit(a, i);
    DefaultCountSplit(r, i);
  }

  // ----- setDefaultAddress -----

  /** In range, the chosen address becomes the only default; length, order and every other field are unchanged. */
  lemma SetDefaultSole(a: seq<Address>, i: int)
    requires 0 <= i < |a|
    ensures |WithDefaultAt(a, i)| == |a|
    ensures WithDefaultAt(a, i)[i].isDefault
    ensures forall j :: 0 <= j < |a| && j != i ==> !WithDefaultAt(a, i)[j].isDefault
    ensures forall j :: 0 <= j < |a| ==> Unflagged(WithDefaultAt(a, i)[j]) == Unflagged(a[j])
    ensures SingleDefault(WithDefaultAt(a, i))
  {
    DefaultCountOne(WithDefaultAt(a, i), i);
  }

  /** Out of range, no address is left flagged default. */
  lemma SetDefaultOutOfRange(a: seq<Address>, i: int)
    requires !(0 <= i < |a|)
    ensures DefaultCount(WithDefaultAt(a, i)) == 0
  {
    DefaultCountNone(WithDefaultAt(a, i));
  }

  // ----- deleteAddress -----

  /** Deleting shortens the list by one and keeps the survivors in order; only a default deletion touches a flag. */
  lemma DeleteKeepsOrder(a: seq<Address>, i: int)
    requires 0 <= i < |a|
    ensures |DeleteAt(a, i)| == |a| - 1
    ensures forall j :: 0 <= j < |a| - 1 ==> Unflagged(DeleteAt(a, i)[j]) == Unflagged(if j < i then a[j] else a[j + 1])
    ensures !a[i].isDefault ==> DeleteAt(a, i) == a[..i] + a[i + 1..]
  {
    var rest := a[..i] + a[i + 1..];
    assert forall j :: 0 <= j < |rest| ==> rest[j] == if j < i then a[j] else a[j + 1];
    assert forall j :: 0 <= j < |rest| ==> Unflagged(DeleteAt(a, i)[j]) == Unflagged(rest[j]);
  }

  /** Deleting the default while others remain flags the first survivor; the other survivors keep their flags. */
  lemma DeleteDefaultPromotes(a: seq<Address>, i: int)
    requires 0 <= i < |a| && a[i].isDefault && |a| > 1
    ensures DeleteAt(a, i)[0].isDefault
    ensures forall j :: 1 <= j < |a| - 1 ==> DeleteAt(a, i)[j] == (if j < i then a[j] else a[j + 1])
  {
  }

  /** Deleting keeps the invariant. */
  lemma DeletePreservesSingleDefault(a: seq<Address>, i: int)
    requires 0 <= i < |a| && SingleDefault(a)
    ensures SingleDefault(DeleteAt(a, i))
  {
    var k := SingleDefaultIndex(a);
    var rest := a[..i] + a[i + 1..];
    var r := DeleteAt(a, i);
    if a[i].isDefault {
      assert k == i;
      if |rest| > 0 {
        DefaultCountOne(r, 0);
      }
    } else {
      assert k != i;
      DefaultCountReplace(a, i, a[i].(isDefault := false));
      assert SaveEdit(a, i, a[i].(isDefault := false)) == a[..i] + [a[i]] + a[i + 1..];
      DefaultCountAppend(a[..i] + [a[i]], a[i + 1..]);
      DefaultCountAppend(a[..i], [a[i]]);
      DefaultCountAppend(a[..i], a[i + 1..]);
      assert |rest| > 0;
    }
  }

  // ----- handleSubmit -----

  /** A new address is appended at the end; the earlier entries keep their order and fields. */
  lemma SaveNewAppends(a: seq<Address>, x: Address)
    ensures |SaveNew(a, x)| == |a| + 1
    ensures Unflagged(SaveNew(a, x)[|a|]) == Unflagged(x)
    ensures forall j :: 0 <= j < |a| ==> Unflagged(SaveNew(a, x)[j]) == Unflagged(a[j])
  {
  }

  /** A first address, or one saved as default, becomes the sole default. */
  lemma SaveNewSole(a: seq<Address>, x: Address)
    requires |a| == 0 || x.isDefault
    ensures SaveNew(a, x)[|a|].isDefault
    ensures forall j :: 0 <= j < |a| ==> !SaveNew(a, x)[j].isDefault
    ensures SingleDefault(SaveNew(a, x))
  {
    DefaultCountOne(SaveNew(a, x), |a|);
  }

  /** A non-default address added to a non-empty list changes no existing flag. */
  lemma SaveNewKeepsFlags(a: seq<Address>, x: Address)
    requires |a| > 0 && !x.isDefault
    ensures SaveNew(a, x) == a + [x]
  {
  }

  /** Adding keeps the invariant. */
  lemma SaveNewPreservesSingleDefault(a: seq<Address>, x: Address)
    requires SingleDefault(a)
    ensures SingleDefault(SaveNew(a, x))
  {
    if |a| == 0 || x.isDefault {
      SaveNewSole(a, x);
    } else {
      DefaultCountAppend(a, [x]);
    }
  }

  /** Editing replaces the entry at the index only; an index past the end changes nothing. */
  lemma SaveEditOnlyIndex(a: seq<Address>, index: int, x: Address)
    ensures |SaveEdit(a, index, x)| == |a|
    ensures forall j :: 0 <= j < |a| && j != index ==> SaveEdit(a, index, x)[j] == a[j]
    ensures 0 <= index < |a| ==> SaveEdit(a, index, x)[index] == x
    ensures !(0 <= index < |a|) ==> SaveEdit(a, index, x) == a
  {
  }

  /** Editing keeps the invariant exactly when the edited address keeps its flag: clearing the default's flag leaves none, flagging another leaves two. */
  lemma EditPreservesIff(a: seq<Address>, index: int, x: Address)
    requires SingleDefault(a) && 0 <= index < |a|
    ensures SingleDefault(SaveEdit(a, index, x)) <==> x.isDefault == a[index].isDefault
  {
    DefaultCountReplace(a, index, x);
  }

  /** Editing alone can break the invariant. */
  lemma EditCanBreakSingleDefault()
    ensures exists a: seq<Address>, index: int, x: Address ::
      SingleDefault(a) && 0 <= index < |a| && !SingleDefault(SaveEdit(a, index, x))
  {
    var home := EmptyAddress.(id := "1", isDefault := true);
    var a := [home];
    assert SingleDefault(a);
    EditPreservesIff(a, 0, home.(isDefault := false));
    assert !SingleDefault(SaveEdit(a, 0, home.(isDefault := false)));
  }

  /** A saved address always carries a non-empty id: the form's own when it has one, the fresh one otherwise. */
  lemma SavedIdNonEmpty(a: seq<Address>, editingIndex: int, form: Address, freshId: string)
    requires freshId != ""
    ensures WithId(form, freshId).id != ""
    ensures form.id != "" ==> WithId(form, freshId) == form
    ensures form.id == "" ==> WithId(form, freshId) == form.(id := freshId)
    ensures editingIndex < 0 ==> Saved(a, editingIndex, form, freshId)[|a|].id != ""
    ensures 0 <= editingIndex < |a| ==> Saved(a, editingIndex, form, freshId)[editingIndex].id != ""
  {
    if editingIndex < 0 {
      SaveNewAppends(a, WithId(form, freshId));
    }
  }

  /** The value of a decimal digit character (0 for any other character). */
  function DigitValue(c: char): nat
  {
    if '0' <= c <= '9' then c as int - '0' as int else 0
  }

  /** The number a string of decimal digits denotes, most significant digit first. */
  function DigitsValue(s: string): nat
  {
    if s == [] then 0 else 10 * DigitsValue(s[..|s| - 1]) + DigitValue(s[|s| - 1])
  }

  /** Decimal digits of a natural number, as `${n}` renders it: no leading zero. */
  function NatToString(n: nat): (s: string)
    ensures |s| >= 1
    ensures forall c :: c in s ==> '0' <= c <= '9'
    ensures |s| > 1 ==> s[0] != '0'
    ensures DigitsValue(s) == n
  {
    var d := "0123456789"[n % 10];
    assert DigitValue(d) == n % 10;
    if n < 10 then [d]
    else
      var t := NatToString(n / 10);
      assert (t + [d])[..|t + [d]| - 1] == t;
      t + [d]
  }

  /** The profile page's address state. */
  class ProfilePage {
    const userName: string
    /** The page's list. */
    var addresses: seq<Address>
    /** Local storage's `userAddresses`. */
    var stored: Option<seq<Address>>
    /** The entry being edited, or -1 for a new one. */
    var editingIndex: int
    /** The form. */
    var current: Address
    var formOpen: bool

    /** The page's load: read the stored list; with none, open a form for a first default address. */
    constructor Load(saved: Option<seq<Address>>, userName: string)
      ensures this.userName == userName
      ensures addresses == saved.GetOr([]) && stored == saved && editingIndex == -1
      ensures saved.None? || |saved.value| == 0 ==>
        current == EmptyAddress.(fullName := userName, name := "Home", isDefault := true) && formOpen
      ensures saved.Some? && |saved.value| > 0 ==> current == EmptyAddress && !formOpen
    {
      this.userName := userName;
      addresses := saved.GetOr([]);
      stored := saved;
      editingIndex := -1;
      if saved.None? || |saved.value| == 0 {
        current := EmptyAddress.(fullName := userName, name := "Home", isDefault := true);
        formOpen := true;
      } else {
        current := EmptyAddress;
        formOpen := false;
      }
    }

    /** addNewAddress: a blank form with a time-based id, named after the next position. */
    method AddNewAddress(now: string)
      modifies this`editingIndex, this`current, this`formOpen
      ensures editingIndex == -1 && formOpen
      ensures current == EmptyAddress.(id := now, fullName := userName, name := "Address " + NatToString(|addresses| + 1))
    {
      editingIndex := -1;
      current := EmptyAddress.(id := now, fullName := userName, name := "Address " + NatToString(|addresses| + 1));
      formOpen := true;
    }

    /** editAddress: the form holds a copy of entry `index`. */
    method EditAddress(index: int)
      requires 0 <= index < |addresses|
      modifies this`editingIndex, this`current, this`formOpen
      ensures editingIndex == index && current == addresses[index] && formOpen
    {
      editingIndex := index;
      current := addresses[index];
      formOpen := true;
    }

    /** handleInputChange: the user's edits to the form's inputs; none of them is the id, which is kept. */
    method ChangeForm(form: Address)
      modifies this`current
      ensures current == form.(id := old(current).id)
    {
      current := form.(id := current.id);
    }

    /** The form's Cancel button: hides the form and leaves the draft and the edit mode as they are. */
    method Cancel()
      modifies this`formOpen
      ensures !formOpen
    {
      formOpen := false;
    }

    /** handleSubmit: save the form (edit or add), persist, close and clear the form. */
    method Submit(freshId: string)
      requires freshId != ""
      modifies this`addresses, this`stored, this`current, this`formOpen
      ensures addresses == Saved(old(addresses), editingIndex, old(current), freshId)
      ensures stored == Some(addresses)
      ensures current == EmptyAddress && !formOpen
      ensures editingIndex < 0 && old(SingleDefault(addresses)) ==> SingleDefault(addresses)
    {
      if editingIndex < 0 && SingleDefault(addresses) {
        SaveNewPreservesSingleDefault(addresses, WithId(current, freshId));
      }
      addresses := Saved(addresses, editingIndex, current, freshId);
      stored := Some(addresses);
      current := EmptyAddress;
      formOpen := false;
    }

    /** deleteAddress, from the entry's delete button. */
    method DeleteAddress(index: int)
      requires 0 <= index < |addresses|
      modifies this`addresses, this`stored
      ensures addresses == DeleteAt(old(addresses), index) && stored == Some(addresses)
      ensures old(SingleDefault(addresses)) ==> SingleDefault(addresses)
    {
      if SingleDefault(addresses) {
        DeletePreservesSingleDefault(addresses, index);
      }
      addresses := DeleteAt(addresses, index);
      stored := Some(addresses);
    }

    /** setDefaultAddress, from an entry's "set as default" button. */
    method SetDefaultAddress(index: int)
      modifies this`addresses, this`stored
      ensures addresses == WithDefaultAt(old(addresses), index) && stored == Some(addresses)
      ensures 0 <= index < |addresses| ==> SingleDefault(addresses)
    {
      if 0 <= index < |addresses| {
        SetDefaultSole(addresses, index);
      }
      addresses := WithDefaultAt(addresses, index);
      stored := Some(addresses);
    }
  }
}
