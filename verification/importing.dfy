/** The entity contracts the tool can import (its `IMPORTING` table) and the
    canonicalisation of the `--importing` option. */
module Importing {
  import opened Results
  import opened Text

  /** One entity type: its natural key column, the names accepted for it on the
      command line, the privileges a connectivity check looks for, the columns
      every row must fill in, and the client operations behind each verb. */
  datatype Contract = Contract(
    name: string,
    key: string,
    aliases: seq<string>,
    privilegeCreate: string,
    privilegeEdit: string,
    required: seq<string>,
    apiCreate: string,
    apiReplace: string,
    apiUpdate: string)

  const Device: Contract := Contract(
    "device", "mac", ["device", "devices"], "mac_create", "full-user-control",
    ["role_id"], "createDevice", "replaceDeviceByMac", "updateDeviceByMac")

  const Guest: Contract := Contract(
    "guest", "username", ["guest", "guests", "guestuser", "guestusers"], "create_user",
    "full-user-control", ["password", "role_id"], "createGuest", "replaceGuestByUserName",
    "updateGuestByUserName")

  /** The table in declaration order, which is the order the option handler searches. */
  const Contracts: seq<Contract> := [Device, Guest]

  /** `name` designates contract `c`, either by its own name or by an alias. */
  predicate Names(c: Contract, name: string)
  {
    name == c.name || name in c.aliases
  }

  /** The first contract of `cs` that `name` designates. */
  function Lookup(cs: seq<Contract>, name: string): (r: Option<Contract>)
    ensures r.Some? ==> r.value in cs && Names(r.value, name)
    ensures r.None? <==> forall i :: 0 <= i < |cs| ==> !Names(cs[i], name)
    ensures r.Some? ==> exists i :: 0 <= i < |cs| && cs[i] == r.value &&
                                   forall j :: 0 <= j < i ==> !Names(cs[j], name)
  {
    if |cs| == 0 then None
    else if Names(cs[0], name) then Some(cs[0])
    else
      var r := Lookup(cs[1..], name);
      assert forall i :: 1 <= i < |cs| ==> cs[i] == cs[1..][i - 1];
      r
  }

  /** The `--importing` handler: lower-cases the value and maps it, or any alias,
      to its contract; any other value makes the tool exit. */
  function ResolveImporting(value: string): (r: Option<Contract>)
    ensures r.Some? ==> r.value in Contracts && Names(r.value, Lower(value))
    ensures r.None? <==> forall c :: c in Contracts ==> !Names(c, Lower(value))
  {
    Lookup(Contracts, Lower(value))
  }

  /** No name designates both contracts. */
  lemma NamesDisjoint(name: string)
    ensures !(Names(Device, name) && Names(Guest, name))
  {
  }

  /** A value selects the device contract exactly when, lower-cased, it is
      the device name or one of its aliases. */
  lemma ResolvesToDevice(value: string)
    ensures ResolveImporting(value) == Some(Device) <==> Names(Device, Lower(value))
  {
    NamesDisjoint(Lower(value));
    assert Contracts[0] == Device;
  }

  /** A value selects the guest contract exactly when, lower-cased, it is the
      guest name or one of its aliases. */
  lemma ResolvesToGuest(value: string)
    ensures ResolveImporting(value) == Some(Guest) <==> Names(Guest, Lower(value))
  {
    var n := Lower(value);
    NamesDisjoint(n);
    assert Contracts[1..] == [Guest];
    if Names(Guest, n) {
      assert Lookup(Contracts, n) == Lookup([Guest], n);
    }
  }

  /** Letter case does not matter; a name outside the table is refused. */
  lemma ImportingExamples()
    ensures ResolveImporting("Devices") == Some(Device)
    ensures ResolveImporting("GuestUsers") == Some(Guest)
    ensures ResolveImporting("endpoint") == None
  {
    assert Lower("Devices") == "devices";
    ResolvesToDevice("Devices");
    assert Lower("GuestUsers") == "guestusers";
    ResolvesToGuest("GuestUsers");
    assert Lower("endpoint") == "endpoint";
  }

  /** A contract's own name resolves back to it. */
  lemma ResolveCanonical(value: string)
    requires ResolveImporting(value).Some?
    ensures ResolveImporting(ResolveImporting(value).value.name) == ResolveImporting(value)
  {
    var c := ResolveImporting(value).value;
    assert Lower(Device.name) == Device.name;
    assert Lower(Guest.name) == Guest.name;
    assert !Names(Device, Guest.name);
    assert !Names(Guest, Device.name);
  }
}
