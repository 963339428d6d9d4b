/**
 * Characteristic discovery. The device's GATT table is given as the list of
 * services, each with its characteristics and their property strings, in the
 * order the BLE stack enumerates them. A characteristic qualifies as the write
 * (notify) target when one of its property strings contains "write" ("notify")
 * as a substring; the first qualifying characteristic in enumeration order wins.
 */
module Discovery {
  import opened Wrappers

  type Uuid = string

  datatype Characteristic = Characteristic(uuid: Uuid, properties: seq<string>)
  datatype Service = Service(uuid: Uuid, characteristics: seq<Characteristic>)

  const WriteProperty: string := "write"
  const NotifyProperty: string := "notify"

  /** `sub` occurs in `s` starting at index i. */
  predicate OccursAt(s: string, sub: string, i: nat) {
    i + |sub| <= |s| && s[i..i + |sub|] == sub
  }

  /** Python's `sub in s` on two strings. */
  predicate Contains(s: string, sub: string)
    decreases |s|
  {
    |sub| <= |s| && (s[..|sub|] == sub || Contains(s[1..], sub))
  }

  /** `sub in s` holds exactly when `sub` occurs at some index of `s`. */
  lemma {:induction false} ContainsIff(s: string, sub: string)
    ensures Contains(s, sub) <==> exists i: nat :: OccursAt(s, sub, i)
    decreases |s|
  {
    if |sub| <= |s| {
      if s[..|sub|] == sub {
        assert OccursAt(s, sub, 0);
      } else {
        if |s| > 0 {
          ContainsIff(s[1..], sub);
          if Contains(s[1..], sub) {
            var i: nat :| OccursAt(s[1..], sub, i);
            assert s[1..][i..i + |sub|] == s[i + 1..i + 1 + |sub|];
            assert OccursAt(s, sub, i + 1);
          }
          if i: nat :| OccursAt(s, sub, i) {
            assert i != 0;
            assert s[1..][i - 1..i - 1 + |sub|] == s[i..i + |sub|];
            assert OccursAt(s[1..], sub, i - 1);
          }
        }
      }
    }
  }

  /** Some property string of the list contains `kind`. */
  predicate AnyPropertyHas(properties: seq<string>, kind: string) {
    exists k :: 0 <= k < |properties| && Contains(properties[k], kind)
  }

  /** The characteristic qualifies as a `kind` target. */
  predicate Matches(c: Characteristic, kind: string) {
    AnyPropertyHas(c.properties, kind)
  }

  /** The UUID of the first characteristic of `cs` that qualifies, if any. */
  function FirstIn(cs: seq<Characteristic>, kind: string): Option<Uuid> {
    if cs == [] then None
    else if Matches(cs[0], kind) then Some(cs[0].uuid)
    else FirstIn(cs[1..], kind)
  }

  /** All characteristics of all services, services first, then characteristics within each. */
  function Flatten(services: seq<Service>): seq<Characteristic> {
    if services == [] then [] else services[0].characteristics + Flatten(services[1..])
  }

  /** The characteristic the scan picks for `kind` when none is configured. */
  function FirstMatch(services: seq<Service>, kind: string): Option<Uuid> {
    FirstIn(Flatten(services), kind)
  }

  /** Index i holds the first qualifying characteristic of `cs`. */
  predicate IsFirstMatch(cs: seq<Characteristic>, kind: string, i: int) {
    && 0 <= i < |cs|
    && Matches(cs[i], kind)
    && forall j :: 0 <= j < i ==> !Matches(cs[j], kind)
  }

  lemma {:induction false} FlattenAppend(services: seq<Service>, s: Service)
    ensures Flatten(services + [s]) == Flatten(services) + s.characteristics
  {
    if services != [] {
      assert (services + [s])[1..] == services[1..] + [s];
      FlattenAppend(services[1..], s);
    }
  }

  /** Searching a concatenation searches the first part, then the second. */
  lemma {:induction false} FirstInAppend(a: seq<Characteristic>, b: seq<Characteristic>, kind: string)
    ensures FirstIn(a + b, kind) == OrElse(FirstIn(a, kind), FirstIn(b, kind))
  {
    if a != [] {
      assert (a + b)[0] == a[0];
      assert (a + b)[1..] == a[1..] + b;
      FirstInAppend(a[1..], b, kind);
    } else {
      assert a + b == b;
    }
  }

  /** The first qualifying characteristic, and no other, is the one FirstIn names. */
  lemma {:induction false} FirstInIsFirst(cs: seq<Characteristic>, kind: string, i: int)
    requires IsFirstMatch(cs, kind, i)
    ensures FirstIn(cs, kind) == Some(cs[i].uuid)
  {
    if i > 0 {
      assert !Matches(cs[0], kind);
      assert forall j :: 0 <= j < i - 1 ==> cs[1..][j] == cs[j + 1];
      FirstInIsFirst(cs[1..], kind, i - 1);
    }
  }

  /** FirstIn finds nothing exactly when no characteristic qualifies. */
  lemma {:induction false} FirstInNone(cs: seq<Characteristic>, kind: string)
    ensures FirstIn(cs, kind).None? <==> forall i :: 0 <= i < |cs| ==> !Matches(cs[i], kind)
  {
    if cs != [] && !Matches(cs[0], kind) {
      FirstInNone(cs[1..], kind);
      assert forall i :: 1 <= i < |cs| ==> cs[i] == cs[1..][i - 1];
    }
  }

  /** When FirstIn names a UUID, it is that of the first qualifying characteristic. */
  lemma {:induction false} FirstInSome(cs: seq<Characteristic>, kind: string)
    requires FirstIn(cs, kind).Some?
    ensures exists i :: IsFirstMatch(cs, kind, i) && cs[i].uuid == FirstIn(cs, kind).value
  {
    if Matches(cs[0], kind) {
      assert IsFirstMatch(cs, kind, 0);
    } else {
      FirstInSome(cs[1..], kind);
      var i :| IsFirstMatch(cs[1..], kind, i) && cs[1..][i].uuid == FirstIn(cs[1..], kind).value;
      assert IsFirstMatch(cs, kind, i + 1);
    }
  }

  /**
   * Write and notify selection are independent: one characteristic whose
   * properties are "write-without-response" and "notify" becomes both targets.
   */
  lemma OneCharacteristicServesBoth(svc: Uuid, chr: Uuid)
    ensures var services := [Service(svc, [Characteristic(chr, ["write-without-response", "notify"])])];
      FirstMatch(services, WriteProperty) == Some(chr) && FirstMatch(services, NotifyProperty) == Some(chr)
  {
    var c := Characteristic(chr, ["write-without-response", "notify"]);
    var services := [Service(svc, [c])];
    assert Flatten(services) == [c];
    assert OccursAt("write-without-response", WriteProperty, 0);
    ContainsIff("write-without-response", WriteProperty);
    assert OccursAt("notify", NotifyProperty, 0);
    ContainsIff("notify", NotifyProperty);
    assert Contains(c.properties[0], WriteProperty);
    assert Contains(c.properties[1], NotifyProperty);
  }
}
