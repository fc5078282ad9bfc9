/** Device names from disk numbers: a, ..., z, aa, ab, ... */
module DiskName {
  import opened Sandbox

  /** DiskId2Name. */
  function NameOf(id: nat): (name: string)
    ensures Lower(name)
  {
    var ch := ['a' + (id % 26) as char];
    if id < 26 then ch else NameOf(id / 26 - 1) + ch
  }

  /** One letter or more, from a to z. */
  predicate Lower(name: string) {
    name != [] && forall i :: 0 <= i < |name| ==> 'a' <= name[i] <= 'z'
  }

  /** The number of a name: its letters as the digits 1 to 26, less one. */
  function IdOf(name: string): (id: nat)
    requires Lower(name)
  {
    var digit := (name[|name| - 1] - 'a') as nat;
    if |name| == 1 then digit else 26 * (IdOf(name[..|name| - 1]) + 1) + digit
  }

  lemma {:induction false} IdOfName(id: nat)
    ensures IdOf(NameOf(id)) == id
  {
    var name := NameOf(id);
    assert (name[|name| - 1] - 'a') as nat == id % 26;
    if id >= 26 {
      IdOfName(id / 26 - 1);
      assert name[..|name| - 1] == NameOf(id / 26 - 1);
    }
  }

  lemma {:induction false} NameOfId(name: string)
    requires Lower(name)
    ensures NameOf(IdOf(name)) == name
    decreases |name|
  {
    var init, last := name[..|name| - 1], name[|name| - 1];
    var digit := (last - 'a') as nat;
    assert name == init + [last] && last == 'a' + digit as char;
    if |name| > 1 {
      NameOfId(init);
      NameOfDigit(IdOf(init), digit);
      assert NameOf(IdOf(name)) == NameOf(IdOf(init)) + [last];
    } else {
      assert name == [last];
    }
  }

  lemma NameOfDigit(id: nat, digit: nat)
    requires digit < 26
    ensures NameOf(26 * (id + 1) + digit) == NameOf(id) + ['a' + digit as char]
  {
    var whole := 26 * (id + 1) + digit;
    assert whole % 26 == digit && whole / 26 == id + 1;
  }

  /** Numbers and names correspond one to one: each lower-case name is that of one number. */
  lemma NamesOneToOne(name: string, a: nat, b: nat)
    requires Lower(name)
    ensures NameOf(a) == NameOf(b) <==> a == b
    ensures NameOf(a) == name <==> a == IdOf(name)
  {
    IdOfName(a);
    IdOfName(b);
    NameOfId(name);
  }

  /** In every run of a sandbox, two disks plugged into it have different device names. */
  lemma DeviceNamesDistinct(steps: seq<Step>, d: nat, e: nat)
    requires d < e < |Run(steps).disks| && Run(steps).disks[d].plugged && Run(steps).disks[e].plugged
    ensures NameOf(Run(steps).disks[d].desc.scsiId) != NameOf(Run(steps).disks[e].desc.scsiId)
  {
    ScsiIdsDistinct(steps, d, e);
    IdOfName(Run(steps).disks[d].desc.scsiId);
    IdOfName(Run(steps).disks[e].desc.scsiId);
  }
}
