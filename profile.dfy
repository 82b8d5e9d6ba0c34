/**
 * The profile screen's address book (app/profile.tsx): adding, updating,
 * deleting and choosing the default delivery address. Local state changes
 * only once the server call has succeeded.
 */
module Profile {
  import opened Wrappers

  datatype DeliveryAddress = DeliveryAddress(
    id: string,
    street: string,
    city: string,
    state: string,
    zipCode: string,
    country: string,
    isDefault: bool,
    addressLabel: string)

  /** The address form (`Omit<DeliveryAddress, 'id'>`). */
  datatype AddressForm = AddressForm(
    street: string,
    city: string,
    state: string,
    zipCode: string,
    country: string,
    isDefault: bool,
    addressLabel: string)

  datatype UserProfile = UserProfile(
    firstName: string,
    lastName: string,
    email: string,
    phone: string,
    dateOfBirth: string,
    gender: string,
    deliveryAddresses: seq<DeliveryAddress>)

  /** The server's answer to an address call, carrying the stored address when there is one. */
  datatype Reply<T> = Ok(data: T) | Failed

  /** How an address handler ends (the alert it shows). */
  datatype HandlerResult = MissingFields | Succeeded | ServerFailed

  /** The cleared form (`street: '', …, isDefault: false, label: ''`). */
  function BlankForm(): AddressForm {
    AddressForm("", "", "", "", "", false, "")
  }

  /** The form check shared by add and update: one of the five required fields is empty. */
  predicate MissingRequiredField(form: AddressForm) {
    form.street == "" || form.city == "" || form.state == "" || form.zipCode == "" || form.country == ""
  }

  /** Number of addresses marked default. */
  function DefaultCount(addrs: seq<DeliveryAddress>): (n: nat)
    ensures n <= |addrs|
  {
    if addrs == [] then 0 else (if addrs[0].isDefault then 1 else 0) + DefaultCount(addrs[1..])
  }

  /** Number of addresses with the given id. */
  function IdCount(addrs: seq<DeliveryAddress>, id: string): nat {
    if addrs == [] then 0 else (if addrs[0].id == id then 1 else 0) + IdCount(addrs[1..], id)
  }

  /** Some address is marked default (`addrs.some(a => a.isDefault)`). */
  predicate HasDefault(addrs: seq<DeliveryAddress>) {
    exists i :: 0 <= i < |addrs| && addrs[i].isDefault
  }

  /** `addrs.map(a => ({ ...a, isDefault: false }))` */
  function ClearDefaults(addrs: seq<DeliveryAddress>): (r: seq<DeliveryAddress>)
    ensures |r| == |addrs|
    ensures forall i :: 0 <= i < |addrs| ==> r[i] == addrs[i].(isDefault := false)
  {
    if addrs == [] then [] else [addrs[0].(isDefault := false)] + ClearDefaults(addrs[1..])
  }

  /** `addrs.filter(a => a.id !== id)` */
  function RemoveAddressId(addrs: seq<DeliveryAddress>, id: string): (r: seq<DeliveryAddress>)
    ensures |r| <= |addrs|
    ensures forall a :: a in r ==> a in addrs && a.id != id
    ensures forall a :: a in addrs && a.id != id ==> a in r
  {
    if addrs == [] then []
    else if addrs[0].id == id then RemoveAddressId(addrs[1..], id)
    else [addrs[0]] + RemoveAddressId(addrs[1..], id)
  }

  /** The list after a successful add of the server-returned `added` (app/profile.tsx:118-130). */
  function AddAddress(addrs: seq<DeliveryAddress>, makeDefault: bool, added: DeliveryAddress): (r: seq<DeliveryAddress>)
    ensures |r| == |addrs| + 1 && r[|addrs|] == added
    ensures forall i :: 0 <= i < |addrs| ==>
              r[i] == if makeDefault then addrs[i].(isDefault := false) else addrs[i]
  {
    if makeDefault then ClearDefaults(addrs) + [added] else addrs + [added]
  }

  /** The list after a successful delete: filter out `id`, then make the first address default when none is. */
  function DeleteAddress(addrs: seq<DeliveryAddress>, id: string): (r: seq<DeliveryAddress>)
    ensures forall a :: a in r ==> a.id != id
    ensures r != [] ==> HasDefault(r)
    ensures HasDefault(RemoveAddressId(addrs, id)) ==> r == RemoveAddressId(addrs, id)
  {
    var kept := RemoveAddressId(addrs, id);
    if |kept| > 0 && !HasDefault(kept) then
      var r := kept[0 := kept[0].(isDefault := true)];
      assert r[0].isDefault;
      r
    else kept
  }

  /** `addrs.map(a => ({ ...a, isDefault: a.id === id }))` */
  function SetDefaultAddress(addrs: seq<DeliveryAddress>, id: string): (r: seq<DeliveryAddress>)
    ensures |r| == |addrs|
    ensures forall i :: 0 <= i < |addrs| ==> r[i] == addrs[i].(isDefault := addrs[i].id == id)
  {
    if addrs == [] then [] else [addrs[0].(isDefault := addrs[0].id == id)] + SetDefaultAddress(addrs[1..], id)
  }

  /**
   * The list after a successful update of the address being edited: that
   * entry becomes the server's `updated`; when the form asks for default,
   * every other entry loses its default mark.
   */
  function UpdateAddress(addrs: seq<DeliveryAddress>, editingId: Option<string>, makeDefault: bool,
                         updated: DeliveryAddress): (r: seq<DeliveryAddress>)
    ensures |r| == |addrs|
    ensures forall i :: 0 <= i < |addrs| ==>
              r[i] == if Some(addrs[i].id) == editingId then updated
                      else if makeDefault then addrs[i].(isDefault := false)
                      else addrs[i]
  {
    if addrs == [] then []
    else
      var head := if Some(addrs[0].id) == editingId then updated
                  else if makeDefault then addrs[0].(isDefault := false)
                  else addrs[0];
      [head] + UpdateAddress(addrs[1..], editingId, makeDefault, updated)
  }

  lemma {:induction false} DefaultCountAppend(a: seq<DeliveryAddress>, b: seq<DeliveryAddress>)
    ensures DefaultCount(a + b) == DefaultCount(a) + DefaultCount(b)
  {
    if a == [] {
      assert a + b == b;
    } else {
      assert (a + b)[1..] == a[1..] + b;
      DefaultCountAppend(a[1..], b);
    }
  }

  /** Marked-default entries exist exactly when their count is positive. */
  lemma {:induction false} HasDefaultIffCount(addrs: seq<DeliveryAddress>)
    ensures HasDefault(addrs) <==> DefaultCount(addrs) > 0
  {
    if addrs != [] {
      HasDefaultIffCount(addrs[1..]);
      if HasDefault(addrs[1..]) {
        var i :| 0 <= i < |addrs[1..]| && addrs[1..][i].isDefault;
        assert addrs[i + 1].isDefault;
      }
      if HasDefault(addrs) && !addrs[0].isDefault {
        var i :| 0 <= i < |addrs| && addrs[i].isDefault;
        assert addrs[1..][i - 1].isDefault;
      }
    }
  }

  lemma {:induction false} ClearDefaultsCount(addrs: seq<DeliveryAddress>)
    ensures DefaultCount(ClearDefaults(addrs)) == 0
  {
    if addrs != [] {
      ClearDefaultsCount(addrs[1..]);
      assert ClearDefaults(addrs)[1..] == ClearDefaults(addrs[1..]);
    }
  }

  /** Adding a default address leaves exactly the server's address marked (if the server marks it). */
  lemma AddDefaultAddressCount(addrs: seq<DeliveryAddress>, added: DeliveryAddress)
    ensures DefaultCount(AddAddress(addrs, true, added)) == if added.isDefault then 1 else 0
  {
    ClearDefaultsCount(addrs);
    DefaultCountAppend(ClearDefaults(addrs), [added]);
  }

  /** Adding a non-default address appends it and leaves the existing list as it was. */
  lemma AddNonDefaultAddress(addrs: seq<DeliveryAddress>, added: DeliveryAddress)
    ensures AddAddress(addrs, false, added) == addrs + [added]
  {
  }

  lemma {:induction false} RemoveAddressIdAppend(a: seq<DeliveryAddress>, b: seq<DeliveryAddress>, id: string)
    ensures RemoveAddressId(a + b, id) == RemoveAddressId(a, id) + RemoveAddressId(b, id)
  {
    if a == [] {
      assert a + b == b;
    } else {
      assert (a + b)[0] == a[0];
      assert (a + b)[1..] == a[1..] + b;
      RemoveAddressIdAppend(a[1..], b, id);
    }
  }

  /** Every address with another id survives the filter, in the same number of copies. */
  lemma {:induction false} RemoveAddressIdKeepsOthers(addrs: seq<DeliveryAddress>, id: string, a: DeliveryAddress)
    requires a.id != id
    ensures multiset(RemoveAddressId(addrs, id))[a] == multiset(addrs)[a]
  {
    if addrs != [] {
      RemoveAddressIdKeepsOthers(addrs[1..], id, a);
      assert addrs == [addrs[0]] + addrs[1..];
    }
  }

  lemma {:induction false} RemoveAddressIdCount(addrs: seq<DeliveryAddress>, id: string)
    ensures DefaultCount(RemoveAddressId(addrs, id)) <= DefaultCount(addrs)
  {
    if addrs != [] {
      RemoveAddressIdCount(addrs[1..], id);
      if addrs[0].id != id {
        assert ([addrs[0]] + RemoveAddressId(addrs[1..], id))[1..] == RemoveAddressId(addrs[1..], id);
      }
    }
  }

  /** Deleting an address never adds a second default: at most one before means exactly one after, unless the list empties. */
  lemma DeleteKeepsSingleDefault(addrs: seq<DeliveryAddress>, id: string)
    requires DefaultCount(addrs) <= 1
    ensures var r := DeleteAddress(addrs, id);
            DefaultCount(r) == if r == [] then 0 else 1
  {
    var kept := RemoveAddressId(addrs, id);
    RemoveAddressIdCount(addrs, id);
    HasDefaultIffCount(kept);
    var r := DeleteAddress(addrs, id);
    if |kept| > 0 && !HasDefault(kept) {
      assert kept == [kept[0]] + kept[1..];
      assert r == [r[0]] + kept[1..];
      DefaultCountAppend([kept[0]], kept[1..]);
      DefaultCountAppend([r[0]], kept[1..]);
    } else if r != [] {
      HasDefaultIffCount(r);
    }
  }

  /** Deleting keeps every other address, in order, up to the default mark on the new first address. */
  lemma DeleteKeepsOthersInOrder(addrs: seq<DeliveryAddress>, id: string)
    ensures var r := DeleteAddress(addrs, id);
            var kept := RemoveAddressId(addrs, id);
            |r| == |kept|
            && (forall i :: 0 <= i < |r| ==> r[i].(isDefault := kept[i].isDefault) == kept[i])
            && (forall i :: 1 <= i < |r| ==> r[i] == kept[i])
  {
  }

  /** A delete keeps every address with another id, marked default only when it becomes the new first default. */
  lemma DeleteKeepsOtherAddresses(addrs: seq<DeliveryAddress>, id: string, a: DeliveryAddress)
    requires a in addrs && a.id != id
    ensures a in DeleteAddress(addrs, id) || a.(isDefault := true) in DeleteAddress(addrs, id)
  {
    var kept := RemoveAddressId(addrs, id);
    var r := DeleteAddress(addrs, id);
    DeleteKeepsOthersInOrder(addrs, id);
    var i :| 0 <= i < |kept| && kept[i] == a;
    if i > 0 {
      assert r[i] == a;
    } else if r[0] != a {
      assert r[0] == a.(isDefault := true);
    }
  }

  /**
   * Saving an edit of the only default address without the default mark
   * leaves the book with no default: the update keeps no invariant there.
   */
  lemma UpdateUnmarkedCanDropDefault()
    ensures var home := DeliveryAddress("1", "123 Main Street", "New York", "NY", "10001", "United States", true, "Home");
            var work := DeliveryAddress("2", "456 Business Ave", "New York", "NY", "10002", "United States", false, "Work");
            var addrs := [home, work];
            DefaultCount(addrs) == 1
            && DefaultCount(UpdateAddress(addrs, Some("1"), false, home.(isDefault := false))) == 0
  {
    var home := DeliveryAddress("1", "123 Main Street", "New York", "NY", "10001", "United States", true, "Home");
    var work := DeliveryAddress("2", "456 Business Ave", "New York", "NY", "10002", "United States", false, "Work");
    var r := UpdateAddress([home, work], Some("1"), false, home.(isDefault := false));
    assert r == [home.(isDefault := false), work];
    DefaultCountAppend([home], [work]);
    DefaultCountAppend([r[0]], [work]);
    assert [home] + [work] == [home, work];
    assert [r[0]] + [work] == r;
  }

  lemma {:induction false} SetDefaultCount(addrs: seq<DeliveryAddress>, id: string)
    ensures DefaultCount(SetDefaultAddress(addrs, id)) == IdCount(addrs, id)
  {
    if addrs != [] {
      SetDefaultCount(addrs[1..], id);
      assert SetDefaultAddress(addrs, id)[1..] == SetDefaultAddress(addrs[1..], id);
    }
  }

  /** With the chosen id present exactly once, set-default leaves exactly one default: that address. */
  lemma SetDefaultSingle(addrs: seq<DeliveryAddress>, id: string)
    requires IdCount(addrs, id) == 1
    ensures DefaultCount(SetDefaultAddress(addrs, id)) == 1
  {
    SetDefaultCount(addrs, id);
  }

  lemma {:induction false} UpdateDefaultCount(addrs: seq<DeliveryAddress>, editingId: string, updated: DeliveryAddress)
    ensures DefaultCount(UpdateAddress(addrs, Some(editingId), true, updated)) ==
            IdCount(addrs, editingId) * (if updated.isDefault then 1 else 0)
  {
    if addrs != [] {
      UpdateDefaultCount(addrs[1..], editingId, updated);
      assert UpdateAddress(addrs, Some(editingId), true, updated)[1..] ==
             UpdateAddress(addrs[1..], Some(editingId), true, updated);
    }
  }

  /** Saving the edited address as default leaves exactly one default when the server's address is marked and the id occurs once. */
  lemma UpdateAsDefaultSingle(addrs: seq<DeliveryAddress>, editingId: string, updated: DeliveryAddress)
    requires IdCount(addrs, editingId) == 1 && updated.isDefault
    ensures DefaultCount(UpdateAddress(addrs, Some(editingId), true, updated)) == 1
  {
    UpdateDefaultCount(addrs, editingId, updated);
  }

  /** The profile the screen starts with, before the server's copy arrives. */
  function InitialProfile(): UserProfile {
    UserProfile("John", "Doe", "john.doe@example.com", "+1 (555) 123-4567", "1990-01-15", "Male",
      [ DeliveryAddress("1", "123 Main Street", "New York", "NY", "10001", "United States", true, "Home"),
        DeliveryAddress("2", "456 Business Ave", "New York", "NY", "10002", "United States", false, "Work") ])
  }

  /** The profile screen's state around the address book. */
  class ProfileScreen {
    var profile: UserProfile
    var loading: bool
    var newAddress: AddressForm
    var editingAddressId: Option<string>
    var showAddAddress: bool

    constructor ()
      ensures profile == InitialProfile() && !loading && newAddress == BlankForm()
      ensures editingAddressId == None && !showAddAddress
    {
      profile := InitialProfile();
      loading := false;
      newAddress := BlankForm();
      editingAddressId := None;
      showAddAddress := false;
    }

    /** `handleAddAddress`, with `reply` the server's answer to `addAddress(newAddress)`. */
    method HandleAddAddress(reply: Reply<DeliveryAddress>) returns (result: HandlerResult)
      modifies this
      ensures result == if MissingRequiredField(old(newAddress)) then MissingFields
                        else if reply.Ok? then Succeeded else ServerFailed
      ensures result == MissingFields ==> unchanged(this)
      ensures result == Succeeded ==>
                && profile == old(profile).(deliveryAddresses :=
                     AddAddress(old(profile.deliveryAddresses), old(newAddress.isDefault), reply.data))
                && newAddress == BlankForm() && !showAddAddress
      ensures result == ServerFailed ==>
                profile == old(profile) && newAddress == old(newAddress) && showAddAddress == old(showAddAddress)
      ensures result != MissingFields ==> !loading
      ensures editingAddressId == old(editingAddressId)
    {
      if MissingRequiredField(newAddress) {
        return MissingFields;
      }
      loading := true;
      match reply {
        case Failed =>
          result := ServerFailed;
        case Ok(addedAddress) =>
          if newAddress.isDefault {
            var updatedAddresses := ClearDefaults(profile.deliveryAddresses);
            profile := profile.(deliveryAddresses := updatedAddresses + [addedAddress]);
          } else {
            profile := profile.(deliveryAddresses := profile.deliveryAddresses + [addedAddress]);
          }
          newAddress := BlankForm();
          showAddAddress := false;
          result := Succeeded;
      }
      loading := false;
    }

    /** The confirmed "Delete" of `handleDeleteAddress`, with `succeeded` the outcome of `deleteAddress(addressId)`. */
    method HandleDeleteAddress(addressId: string, succeeded: bool) returns (result: HandlerResult)
      modifies this`profile, this`loading
      ensures result == if succeeded then Succeeded else ServerFailed
      ensures profile == if succeeded
                         then old(profile).(deliveryAddresses := DeleteAddress(old(profile.deliveryAddresses), addressId))
                         else old(profile)
      ensures !loading
    {
      loading := true;
      if !succeeded {
        loading := false;
        return ServerFailed;
      }
      var updatedAddresses := RemoveAddressId(profile.deliveryAddresses, addressId);
      if |updatedAddresses| > 0 && !HasDefault(updatedAddresses) {
        // the source sets the flag on the first remaining address object in place
        updatedAddresses := updatedAddresses[0 := updatedAddresses[0].(isDefault := true)];
      }
      profile := profile.(deliveryAddresses := updatedAddresses);
      loading := false;
      result := Succeeded;
    }

    /** `handleSetDefaultAddress`, with `succeeded` the outcome of `setDefaultAddress(addressId)`. */
    method HandleSetDefaultAddress(addressId: string, succeeded: bool) returns (result: HandlerResult)
      modifies this`profile, this`loading
      ensures result == if succeeded then Succeeded else ServerFailed
      ensures profile == if succeeded
                         then old(profile).(deliveryAddresses := SetDefaultAddress(old(profile.deliveryAddresses), addressId))
                         else old(profile)
      ensures !loading
    {
      loading := true;
      if succeeded {
        profile := profile.(deliveryAddresses := SetDefaultAddress(profile.deliveryAddresses, addressId));
        result := Succeeded;
      } else {
        result := ServerFailed;
      }
      loading := false;
    }

    /** `handleEditAddress`: load an address into the form and remember its id. */
    method HandleEditAddress(address: DeliveryAddress)
      modifies this`newAddress, this`editingAddressId, this`showAddAddress
      ensures newAddress == AddressForm(address.street, address.city, address.state, address.zipCode,
                                        address.country, address.isDefault, address.addressLabel)
      ensures editingAddressId == Some(address.id) && showAddAddress
    {
      newAddress := AddressForm(address.street, address.city, address.state, address.zipCode,
                                address.country, address.isDefault, address.addressLabel);
      editingAddressId := Some(address.id);
      showAddAddress := true;
    }

    /** `handleUpdateAddress`, with `reply` the server's answer to `updateAddress(editingAddressId, newAddress)`. */
    method HandleUpdateAddress(reply: Reply<DeliveryAddress>) returns (result: HandlerResult)
      modifies this
      ensures result == if MissingRequiredField(old(newAddress)) then MissingFields
                        else if reply.Ok? then Succeeded else ServerFailed
      ensures result == MissingFields ==> unchanged(this)
      ensures result == Succeeded ==>
                && profile == old(profile).(deliveryAddresses :=
                     UpdateAddress(old(profile.deliveryAddresses), old(editingAddressId), old(newAddress.isDefault), reply.data))
                && newAddress == BlankForm() && editingAddressId == None && !showAddAddress
      ensures result == ServerFailed ==>
                && profile == old(profile) && newAddress == old(newAddress)
                && editingAddressId == old(editingAddressId) && showAddAddress == old(showAddAddress)
      ensures result != MissingFields ==> !loading
    {
      if MissingRequiredField(newAddress) {
        return MissingFields;
      }
      loading := true;
      match reply {
        case Failed =>
          result := ServerFailed;
        case Ok(updatedAddress) =>
          profile := profile.(deliveryAddresses :=
            UpdateAddress(profile.deliveryAddresses, editingAddressId, newAddress.isDefault, updatedAddress));
          newAddress := BlankForm();
          editingAddressId := None;
          showAddAddress := false;
          result := Succeeded;
      }
      loading := false;
    }
  }

  /** The starting address book has exactly one default address. */
  lemma InitialProfileHasOneDefault()
    ensures DefaultCount(InitialProfile().deliveryAddresses) == 1
  {
    var a := InitialProfile().deliveryAddresses;
    assert a[1..][1..] == [];
  }
}
