/** The address resolver `find_sensor`, as a pure function of the probe results
    and the configured address. */
module Resolver {
  import opened SensorTypes

  /** The humidity/temperature drivers `find_sensor` tries, highest priority first. */
  const ScanOrder: seq<DriverId> := [Bme280_1, Bme280_2, Shtc3, Hdc2080_1, Hdc2080_2, Htu21d]

  /** Driver `d` was found by its probe and answers at address `a`. */
  predicate Matches(p: Probes, d: DriverId, a: Address) {
    d in p && p[d].found && p[d].address == a
  }

  /** The if/else-if chain of the scan from candidate `i` on: the first found
      driver at address `a`. */
  function ScanFrom(p: Probes, a: Address, i: nat): Option<DriverId>
    decreases |ScanOrder| - i
  {
    if i >= |ScanOrder| then None
    else if Matches(p, ScanOrder[i], a) then Some(ScanOrder[i])
    else ScanFrom(p, a, i + 1)
  }

  /** `find_sensor`'s choice of driver: the sentinel short-circuits, otherwise
      the first found driver of the scan order at the configured address. */
  function Resolve(p: Probes, a: Address): Option<DriverId> {
    if a == Unconfigured then None else ScanFrom(p, a, 0)
  }

  /** First match: a chosen driver matches, no earlier candidate from `i` on
      does, and nothing is chosen exactly when no candidate from `i` on matches. */
  lemma {:induction false} ScanFromSpec(p: Probes, a: Address, i: nat)
    ensures ScanFrom(p, a, i).Some? ==> Matches(p, ScanFrom(p, a, i).value, a)
    ensures ScanFrom(p, a, i).Some? ==>
      exists k :: i <= k < |ScanOrder| && ScanOrder[k] == ScanFrom(p, a, i).value &&
                  forall j :: i <= j < k ==> !Matches(p, ScanOrder[j], a)
    ensures ScanFrom(p, a, i).None? <==> forall j :: i <= j < |ScanOrder| ==> !Matches(p, ScanOrder[j], a)
    decreases |ScanOrder| - i
  {
    if i < |ScanOrder| && !Matches(p, ScanOrder[i], a) {
      ScanFromSpec(p, a, i + 1);
      if ScanFrom(p, a, i + 1).Some? {
        var k :| i + 1 <= k < |ScanOrder| && ScanOrder[k] == ScanFrom(p, a, i + 1).value &&
                 forall j :: i + 1 <= j < k ==> !Matches(p, ScanOrder[j], a);
        assert forall j :: i <= j < k ==> !Matches(p, ScanOrder[j], a);
      }
    }
  }

  /** What `find_sensor` promises about its choice: nothing for the sentinel; a
      humidity driver (never MPRLS or TCS34725) that was found at the address,
      with no earlier candidate found there; nothing only when no candidate is. */
  lemma ResolveSpec(p: Probes, a: Address)
    ensures a == Unconfigured ==> Resolve(p, a).None?
    ensures Resolve(p, a).Some? ==> Resolve(p, a).value in ScanOrder && Matches(p, Resolve(p, a).value, a)
    ensures Resolve(p, a).Some? ==> Resolve(p, a).value != Mprls && Resolve(p, a).value != Tcs34725
    ensures Resolve(p, a).Some? ==>
      exists i :: 0 <= i < |ScanOrder| && ScanOrder[i] == Resolve(p, a).value &&
                  forall j :: 0 <= j < i ==> !Matches(p, ScanOrder[j], a)
    ensures a != Unconfigured ==>
      (Resolve(p, a).None? <==> forall i :: 0 <= i < |ScanOrder| ==> !Matches(p, ScanOrder[i], a))
  {
    ScanFromSpec(p, a, 0);
  }

  /** The converse of first-match: the earliest matching candidate is the one chosen,
      whatever later candidates also match. */
  lemma ResolvePicksEarliest(p: Probes, a: Address, i: nat)
    requires a != Unconfigured
    requires i < |ScanOrder| && Matches(p, ScanOrder[i], a)
    requires forall j :: 0 <= j < i ==> !Matches(p, ScanOrder[j], a)
    ensures Resolve(p, a) == Some(ScanOrder[i])
  {
    ResolveSpec(p, a);
    var r := Resolve(p, a);
    var k :| 0 <= k < |ScanOrder| && ScanOrder[k] == r.value &&
             forall j :: 0 <= j < k ==> !Matches(p, ScanOrder[j], a);
  }

  /** When exactly one humidity driver is found at the address, it is the one chosen. */
  lemma ResolveUniqueMatch(p: Probes, a: Address, d: DriverId)
    requires a != Unconfigured && d in ScanOrder && Matches(p, d, a)
    requires forall e :: e in ScanOrder && e != d ==> !Matches(p, e, a)
    ensures Resolve(p, a) == Some(d)
  {
    var i :| 0 <= i < |ScanOrder| && ScanOrder[i] == d;
    ResolvePicksEarliest(p, a, i);
  }
}
