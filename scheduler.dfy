/** The fixed-phase gate of `sensor_run` and the order it polls the roles in. */
module Scheduler {
  import opened SensorTypes

  /** The due time after one call at time `now`: nothing happens before the due
      time; a firing moves the due time one period past the old due time. */
  function NextDue(next: nat, now: nat): nat {
    if now < next then next else next + Period
  }

  /** The `run()` call made through role `r`, if it is bound. */
  function CallOf(t: RoleTable, r: Role): seq<RunCall> {
    if t.Get(r).Some? then [RunCall(r, t.Get(r).value)] else []
  }

  /** The `run()` calls one firing makes over the roles `rs`, skipping unbound roles. */
  function Dispatch(t: RoleTable, rs: seq<Role>): seq<RunCall> {
    if rs == [] then [] else Dispatch(t, rs[..|rs| - 1]) + CallOf(t, rs[|rs| - 1])
  }

  predicate RankIncreasing(rs: seq<Role>) {
    forall i, j :: 0 <= i < j < |rs| ==> Rank(rs[i]) < Rank(rs[j])
  }

  /** A firing calls `run()` on exactly the bound roles of `rs`, each once, through
      the driver the role is bound to, in the order of `rs`. */
  lemma {:induction false} DispatchExact(t: RoleTable, rs: seq<Role>)
    requires RankIncreasing(rs)
    ensures forall i :: 0 <= i < |Dispatch(t, rs)| ==>
      Dispatch(t, rs)[i].role in rs && t.Get(Dispatch(t, rs)[i].role) == Some(Dispatch(t, rs)[i].driver)
    ensures forall i, j :: 0 <= i < j < |Dispatch(t, rs)| ==>
      Rank(Dispatch(t, rs)[i].role) < Rank(Dispatch(t, rs)[j].role)
    ensures forall r :: r in rs && t.Get(r).Some? ==>
      exists i :: 0 <= i < |Dispatch(t, rs)| && Dispatch(t, rs)[i].role == r
  {
    if rs != [] {
      var init, last := rs[..|rs| - 1], rs[|rs| - 1];
      DispatchExact(t, init);
      var d0 := Dispatch(t, init);
      var d := Dispatch(t, rs);
      assert forall k :: 0 <= k < |d0| ==> d[k] == d0[k];
      assert forall r :: r in rs <==> r in init || r == last;
      assert forall k :: 0 <= k < |d0| ==> Rank(d0[k].role) < Rank(last) by {
        forall k | 0 <= k < |d0| ensures Rank(d0[k].role) < Rank(last) {
          var m :| 0 <= m < |init| && init[m] == d0[k].role;
          assert rs[m] == init[m];
        }
      }
      if t.Get(last).Some? {
        assert d[|d0|] == RunCall(last, t.Get(last).value);
      }
    }
  }

  /** One firing of `sensor_run`: ambient, intake, desiccant, output, in-pressure,
      out-pressure, color, each bound role exactly once, unbound roles skipped. */
  lemma FiringOrder(t: RoleTable)
    ensures forall i :: 0 <= i < |Dispatch(t, RunOrder)| ==>
      t.Get(Dispatch(t, RunOrder)[i].role) == Some(Dispatch(t, RunOrder)[i].driver)
    ensures forall i, j :: 0 <= i < j < |Dispatch(t, RunOrder)| ==>
      Rank(Dispatch(t, RunOrder)[i].role) < Rank(Dispatch(t, RunOrder)[j].role)
    ensures forall r: Role :: t.Get(r).Some? ==>
      exists i :: 0 <= i < |Dispatch(t, RunOrder)| && Dispatch(t, RunOrder)[i].role == r
  {
    DispatchExact(t, RunOrder);
    forall r: Role ensures r in RunOrder {
      assert RunOrder[Rank(r)] == r;
    }
  }

  /** The due time after a run of calls at times `times`. */
  function NextAfter(next: nat, times: seq<nat>): nat
    decreases times
  {
    if times == [] then next else NextAfter(NextDue(next, times[0]), times[1..])
  }

  /** The call times at which the gate fired. */
  function FireTimes(next: nat, times: seq<nat>): seq<nat>
    decreases times
  {
    if times == [] then []
    else if times[0] < next then FireTimes(next, times[1..])
    else [times[0]] + FireTimes(next + Period, times[1..])
  }

  /** No drift: after any run of calls the due time is the initial one plus one
      period per firing, whenever the calls came. */
  lemma {:induction false} NoDrift(next: nat, times: seq<nat>)
    ensures NextAfter(next, times) == next + Period * |FireTimes(next, times)|
    decreases times
  {
    if times != [] {
      NoDrift(NextDue(next, times[0]), times[1..]);
    }
  }

  /** The k-th firing never comes before its slot `next + k * Period`; a late call
      does not move later slots. */
  lemma {:induction false} FiringsAnchored(next: nat, times: seq<nat>)
    ensures forall k :: 0 <= k < |FireTimes(next, times)| ==> FireTimes(next, times)[k] >= next + k * Period
    decreases times
  {
    if times != [] {
      if times[0] < next {
        FiringsAnchored(next, times[1..]);
      } else {
        FiringsAnchored(next + Period, times[1..]);
        var f := FireTimes(next, times);
        forall k | 0 <= k < |f| ensures f[k] >= next + k * Period {
          if k > 0 {
            assert f[k] == FireTimes(next + Period, times[1..])[k - 1];
          }
        }
      }
    }
  }

  /** `n` consecutive millisecond ticks starting at `s`. */
  function Ticks(s: nat, n: nat): (r: seq<nat>)
    ensures |r| == n
  {
    seq(n, i => s + i)
  }

  /** Polled on every tick from no later than the first due time, the gate fires
      exactly at the slots `next, next + Period, ...`, once per slot reached. */
  lemma {:induction false} PunctualPolling(next: nat, s: nat, n: nat)
    requires s <= next
    ensures |FireTimes(next, Ticks(s, n))| == if s + n <= next then 0 else (s + n - 1 - next) / Period + 1
    ensures forall k :: 0 <= k < |FireTimes(next, Ticks(s, n))| ==>
      FireTimes(next, Ticks(s, n))[k] == next + k * Period
    decreases n
  {
    if n > 0 {
      var ts := Ticks(s, n);
      assert ts[0] == s;
      assert ts[1..] == Ticks(s + 1, n - 1);
      if s < next {
        PunctualPolling(next, s + 1, n - 1);
      } else {
        PunctualPolling(next + Period, s + 1, n - 1);
        var f := FireTimes(next, ts);
        var g := FireTimes(next + Period, Ticks(s + 1, n - 1));
        assert f == [s] + g;
        forall k | 0 <= k < |f| ensures f[k] == next + k * Period {
          if k > 0 { assert f[k] == g[k - 1]; }
        }
      }
    }
  }
}
