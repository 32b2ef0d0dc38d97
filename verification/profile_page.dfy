/** The profile page: the address list it sends on add and delete, the
    password-change payload, its three form schemas, and when it loads the
    order history. */
module ProfilePage {
  import opened Js
  import Lists

  /** `[...v]` for a value that is iterable: a list gives its elements, a
      string its characters as one-character strings. */
  function Spreadable(v: Val): bool {
    v.Arr? || v.Str?
  }

  /** The elements `[...v]` yields for a spreadable value. */
  function SpreadElems(v: Val): (r: seq<Val>)
    requires Spreadable(v)
    ensures v.Arr? ==> r == v.elems
    ensures v.Str? ==> |r| == |v.s| && forall i :: 0 <= i < |r| ==> r[i] == Str([v.s[i]])
  {
    if v.Arr? then v.elems else seq(|v.s|, i requires 0 <= i < |v.s| => Str([v.s[i]]))
  }

  /** `[...(user.addresses || []), values]`: the submitted address after the
      existing ones. `None` where spreading throws: a truthy value that is
      neither a list nor a string. */
  function AddressesAfterAdd(addresses: Val, address: Val): (r: Option<seq<Val>>)
    ensures addresses.Arr? ==> r == Some(addresses.elems + [address])
    ensures addresses.Str? ==> r.Some? && |r.value| == |addresses.s| + 1
                               && forall i :: 0 <= i < |addresses.s| ==> r.value[i] == Str([addresses.s[i]])
    ensures !Truthy(addresses) ==> r == Some([address])
    ensures r.None? <==> Truthy(addresses) && !Spreadable(addresses)
    ensures r.Some? ==> |r.value| >= 1 && r.value[|r.value| - 1] == address
  {
    var base := Or(addresses, Arr([]));
    assert !Truthy(addresses) ==> SpreadElems(base) + [address] == [address];
    if Spreadable(base) then Some(SpreadElems(base) + [address]) else None
  }

  /** `user.addresses.filter((_, i) => i !== index)`. `None` where `filter`
      is missing: no list at all. */
  function AddressesAfterDelete(addresses: Val, index: int): (r: Option<seq<Val>>)
    ensures r.Some? <==> addresses.Arr?
    ensures addresses.Arr? ==> r.value == Lists.RemoveAt(addresses.elems, index)
  {
    if addresses.Arr? then Some(Lists.RemoveAt(addresses.elems, index)) else None
  }

  /** Deleting the address just added gives back the list it was added to. */
  lemma DeleteUndoesAdd(xs: seq<Val>, address: Val)
    ensures AddressesAfterDelete(Arr(AddressesAfterAdd(Arr(xs), address).value), |xs|) == Some(xs)
  {
    assert (xs + [address])[..|xs|] == xs;
    assert (xs + [address])[|xs| + 1..] == [];
    assert Lists.RemoveAt(xs + [address], |xs|) == xs;
    assert AddressesAfterAdd(Arr(xs), address).value == xs + [address];
  }

  /** The `data` of the password change: `currentPassword`, and the new
      password under `password`; the confirmation is not sent. */
  function PasswordPayload(currentPassword: string, newPassword: string, confirmPassword: string): (m: map<string, Val>)
    ensures m.Keys == {"currentPassword", "password"}
    ensures m["currentPassword"] == Str(currentPassword) && m["password"] == Str(newPassword)
    ensures "confirmPassword" !in m
  {
    map["currentPassword" := Str(currentPassword), "password" := Str(newPassword)]
  }

  datatype PasswordField = CurrentPassword | NewPassword | ConfirmPassword

  /** `passwordSchema`: the current password is required, the new one needs
      six characters, and the confirmation is required and equal to it. */
  predicate PasswordInvalid(currentPassword: string, newPassword: string, confirmPassword: string, field: PasswordField) {
    match field
    case CurrentPassword => currentPassword == ""
    case NewPassword => |newPassword| < 6
    case ConfirmPassword => confirmPassword == "" || confirmPassword != newPassword
  }

  /** The password form is accepted exactly when the current password is
      given, the new one has at least six characters and the confirmation
      repeats it; then the confirmation is non-empty by itself. */
  lemma PasswordSchemaAccepts(currentPassword: string, newPassword: string, confirmPassword: string)
    ensures (forall field :: !PasswordInvalid(currentPassword, newPassword, confirmPassword, field)) <==>
              currentPassword != "" && |newPassword| >= 6 && confirmPassword == newPassword
  {
    if forall field :: !PasswordInvalid(currentPassword, newPassword, confirmPassword, field) {
      assert !PasswordInvalid(currentPassword, newPassword, confirmPassword, CurrentPassword);
      assert !PasswordInvalid(currentPassword, newPassword, confirmPassword, NewPassword);
      assert !PasswordInvalid(currentPassword, newPassword, confirmPassword, ConfirmPassword);
    } else {
      var field :| PasswordInvalid(currentPassword, newPassword, confirmPassword, field);
      match field
      case CurrentPassword => case NewPassword => case ConfirmPassword =>
    }
  }

  datatype InfoField = Name | Surname

  /** `infoSchema`: name and surname are required. */
  predicate InfoInvalid(name: string, surname: string, field: InfoField) {
    match field
    case Name => name == ""
    case Surname => surname == ""
  }

  /** The info form is accepted exactly when both names are filled, and each
      field's verdict depends on that field alone. */
  lemma InfoSchemaAccepts(name: string, surname: string, name': string)
    ensures (forall field :: !InfoInvalid(name, surname, field)) <==> name != "" && surname != ""
    ensures InfoInvalid(name', surname, Surname) == InfoInvalid(name, surname, Surname)
  {
    if forall field :: !InfoInvalid(name, surname, field) {
      assert !InfoInvalid(name, surname, Name);
      assert !InfoInvalid(name, surname, Surname);
    } else {
      var field :| InfoInvalid(name, surname, field);
      match field
      case Name => case Surname =>
    }
  }

  datatype AddressForm = AddressForm(title: string, telephone: string, city: string, district: string, address: string)

  datatype AddressField = Title | Telephone | City | District | Street

  /** `addressSchema`: all five fields are required. */
  predicate AddressInvalid(a: AddressForm, field: AddressField) {
    match field
    case Title => a.title == ""
    case Telephone => a.telephone == ""
    case City => a.city == ""
    case District => a.district == ""
    case Street => a.address == ""
  }

  /** The address form is accepted exactly when all five fields are filled;
      the empty form is refused on every field. */
  lemma AddressSchemaAccepts(a: AddressForm)
    ensures (forall field :: !AddressInvalid(a, field)) <==>
              a.title != "" && a.telephone != "" && a.city != "" && a.district != "" && a.address != ""
    ensures forall field :: AddressInvalid(AddressForm("", "", "", "", ""), field)
  {
    if forall field :: !AddressInvalid(a, field) {
      assert !AddressInvalid(a, Title) && !AddressInvalid(a, Telephone) && !AddressInvalid(a, City);
      assert !AddressInvalid(a, District) && !AddressInvalid(a, Street);
    } else {
      var field :| AddressInvalid(a, field);
      match field
      case Title => case Telephone => case City => case District => case Street =>
    }
  }

  /** The body of the effect on `activeTab`: fetch on the "orders" tab. */
  predicate ShouldFetchOrders(activeTab: string) {
    activeTab == "orders"
  }

  /** The order fetches of the effect over a run of tab clicks starting from
      `tab`. React runs the effect again only when `activeTab` changes, and
      clicking the tab already shown changes nothing. */
  function OrderFetches(tab: string, clicks: seq<string>): (n: nat)
    ensures n <= |clicks|
    decreases |clicks|
  {
    if |clicks| == 0 then 0
    else (if clicks[0] != tab && ShouldFetchOrders(clicks[0]) then 1 else 0) + OrderFetches(clicks[0], clicks[1..])
  }

  /** The tab shown after a run of clicks. */
  function TabAfter(tab: string, clicks: seq<string>): string {
    if |clicks| == 0 then tab else clicks[|clicks| - 1]
  }

  /** The page opens on "info", so mounting fetches nothing; fetches of two
      runs of clicks add up, the second starting on the tab the first left. */
  lemma {:induction false} OrderFetchesConcat(tab: string, xs: seq<string>, ys: seq<string>)
    ensures !ShouldFetchOrders("info")
    ensures OrderFetches(tab, xs + ys) == OrderFetches(tab, xs) + OrderFetches(TabAfter(tab, xs), ys)
    decreases |xs|
  {
    if |xs| > 0 {
      assert (xs + ys)[1..] == xs[1..] + ys;
      OrderFetchesConcat(xs[0], xs[1..], ys);
      assert TabAfter(xs[0], xs[1..]) == TabAfter(tab, xs);
      assert (xs + ys)[0] == xs[0];
    } else {
      assert xs + ys == ys;
    }
  }

  /** Clicks that never pick "orders" fetch nothing, and every fetch is a
      click on "orders". */
  lemma {:induction false} OrderFetchesOnlyOnOrders(tab: string, clicks: seq<string>)
    ensures OrderFetches(tab, clicks) <= multiset(clicks)["orders"]
    ensures "orders" !in clicks ==> OrderFetches(tab, clicks) == 0
    decreases |clicks|
  {
    if |clicks| > 0 {
      OrderFetchesOnlyOnOrders(clicks[0], clicks[1..]);
      assert clicks == [clicks[0]] + clicks[1..];
      assert multiset(clicks) == multiset([clicks[0]]) + multiset(clicks[1..]);
    }
  }

  /** Clicking "orders" again and again fetches once when coming from another
      tab and never when already there. */
  lemma {:induction false} RepeatedOrdersClicksFetchOnce(tab: string, k: nat)
    requires k >= 1
    ensures OrderFetches(tab, seq(k, _ => "orders")) == if tab == "orders" then 0 else 1
    decreases k
  {
    var clicks := seq(k, _ => "orders");
    if k > 1 {
      assert clicks[1..] == seq(k - 1, _ => "orders");
      RepeatedOrdersClicksFetchOnce("orders", k - 1);
    }
  }
}
