/**
 * The two pieces of the input screen that hold logic: the label of the POW
 * channel, which depends on the role, and the consistency check run on the
 * three value tables before scoring.
 */
module App {
  import opened Scoring

  const PhysicalPowLabel: string := "力（POW）"
  const MagicalPowLabel: string := "魔力（POW）"

  /** The POW label reads "strength" for the physical role and "magic" for any other. */
  function PowLabel(role: string): (shown: string)
    ensures shown == PhysicalPowLabel <==> role == "physical"
    ensures role != "physical" ==> shown == MagicalPowLabel
  {
    if role == "physical" then PhysicalPowLabel else MagicalPowLabel
  }

  /** The label and the weight tables agree on which roles are physical. */
  lemma PowLabelMatchesProfile(role: string)
    ensures PowLabel(role) == PhysicalPowLabel <==> ProfileFor(role) == Physical
    ensures PowLabel(role) == MagicalPowLabel <==> ProfileFor(role) == Magical
  {
    ProfilesNormalised();
  }

  // ---- Input check ----

  /** The three checks made on each channel, in the order they are made. */
  datatype Check = CapNegative | InitAboveCap | CurAboveCap

  /** One failed check on one channel. */
  datatype Violation = Violation(stat: Stat, check: Check)

  function CheckRank(c: Check): nat
  {
    match c
    case CapNegative => 0
    case InitAboveCap => 1
    case CurAboveCap => 2
  }

  /** Whether a check fails on a channel with these initial, current and cap values. */
  predicate Fails(c: Check, init: real, cur: real, cap: real)
  {
    match c
    case CapNegative => cap < 0.0
    case InitAboveCap => init > cap
    case CurAboveCap => cur > cap
  }

  /** A channel passes every check. */
  predicate Consistent(init: real, cur: real, cap: real)
  {
    0.0 <= cap && init <= cap && cur <= cap
  }

  function Text(c: Check): string
  {
    match c
    case CapNegative => "上限は0以上にしてください。"
    case InitAboveCap => "初期値が上限を超えています。"
    case CurAboveCap => "現在値が上限を超えています。"
  }

  /** The message shown for a violation: the channel key, a colon, then the text. */
  function Message(v: Violation): string
  {
    Key(v.stat) + ": " + Text(v.check)
  }

  /** The messages of a report, one per violation and in the same order. */
  function Messages(vs: seq<Violation>): seq<string>
  {
    seq(|vs|, i requires 0 <= i < |vs| => Message(vs[i]))
  }

  /** The failed checks of one channel, in the order they are made. */
  function ChannelViolations(init: Channels, cur: Channels, cap: Channels, k: Stat): seq<Violation>
    requires Covers(init) && Covers(cur) && Covers(cap)
  {
    Flag(cap[k] < 0.0, Violation(k, CapNegative))
    + Flag(init[k] > cap[k], Violation(k, InitAboveCap))
    + Flag(cur[k] > cap[k], Violation(k, CurAboveCap))
  }

  /** [v] when the check failed, nothing otherwise. */
  function Flag(failed: bool, v: Violation): seq<Violation>
  {
    if failed then [v] else []
  }

  /** A channel's report holds exactly its failed checks, each once, in check order. */
  lemma ChannelViolationsSpec(init: Channels, cur: Channels, cap: Channels, k: Stat)
    requires Covers(init) && Covers(cur) && Covers(cap)
    ensures var r := ChannelViolations(init, cur, cap, k);
      && (forall v :: v in r <==> v.stat == k && Fails(v.check, init[k], cur[k], cap[k]))
      && (r == [] <==> Consistent(init[k], cur[k], cap[k]))
      && |r| <= 3
      && forall i, j :: 0 <= i < j < |r| ==> CheckRank(r[i].check) < CheckRank(r[j].check)
  {
  }

  /** The failed checks of the channels ks, channel by channel in the order of ks. */
  function Violations(init: Channels, cur: Channels, cap: Channels, ks: seq<Stat>): seq<Violation>
    requires Covers(init) && Covers(cur) && Covers(cap)
  {
    if ks == [] then []
    else Violations(init, cur, cap, ks[..|ks| - 1]) + ChannelViolations(init, cur, cap, ks[|ks| - 1])
  }

  /**
   * The check over the seven channels: one message per failed check, channel
   * by channel in the order of STATS, and for each channel the cap check
   * first, then the initial value, then the current value.
   */
  method Validate(init: Channels, cur: Channels, cap: Channels) returns (errs: seq<string>)
    requires Covers(init) && Covers(cur) && Covers(cap)
    ensures errs == Messages(Violations(init, cur, cap, STATS))
  {
    errs := [];
    for i := 0 to |STATS|
      invariant errs == Messages(Violations(init, cur, cap, STATS[..i]))
    {
      var k := STATS[i];
      ghost var e0 := errs;
      if cap[k] < 0.0 {
        errs := errs + [Message(Violation(k, CapNegative))];
      }
      ghost var e1 := errs;
      if init[k] > cap[k] {
        errs := errs + [Message(Violation(k, InitAboveCap))];
      }
      ghost var e2 := errs;
      if cur[k] > cap[k] {
        errs := errs + [Message(Violation(k, CurAboveCap))];
      }
      ChannelStep(init, cur, cap, STATS, i, e0, e1, e2, errs);
    }
    assert STATS[..|STATS|] == STATS;
  }

  lemma ViolationsStep(init: Channels, cur: Channels, cap: Channels, ks: seq<Stat>, i: nat)
    requires Covers(init) && Covers(cur) && Covers(cap)
    requires i < |ks|
    ensures Violations(init, cur, cap, ks[..i + 1]) == Violations(init, cur, cap, ks[..i]) + ChannelViolations(init, cur, cap, ks[i])
  {
    assert ks[..i + 1][..i] == ks[..i];
  }

  lemma Regroup<T>(a: seq<T>, b: seq<T>, c: seq<T>, d: seq<T>)
    ensures a + b + c + d == a + (b + c + d)
  {
  }

  lemma AppendFlag(e: seq<string>, e': seq<string>, failed: bool, v: Violation)
    requires e' == if failed then e + [Message(v)] else e
    ensures e' == e + Messages(Flag(failed, v))
  {
    if !failed {
      assert e + [] == e;
    }
  }

  lemma MessagesAppend(a: seq<Violation>, b: seq<Violation>)
    ensures Messages(a + b) == Messages(a) + Messages(b)
  {
  }

  /** The messages of the first i channels, extended by the three checks of channel i. */
  lemma ChannelStep(init: Channels, cur: Channels, cap: Channels, ks: seq<Stat>, i: nat,
                    e0: seq<string>, e1: seq<string>, e2: seq<string>, e3: seq<string>)
    requires Covers(init) && Covers(cur) && Covers(cap)
    requires i < |ks|
    requires e0 == Messages(Violations(init, cur, cap, ks[..i]))
    requires e1 == if cap[ks[i]] < 0.0 then e0 + [Message(Violation(ks[i], CapNegative))] else e0
    requires e2 == if init[ks[i]] > cap[ks[i]] then e1 + [Message(Violation(ks[i], InitAboveCap))] else e1
    requires e3 == if cur[ks[i]] > cap[ks[i]] then e2 + [Message(Violation(ks[i], CurAboveCap))] else e2
    ensures e3 == Messages(Violations(init, cur, cap, ks[..i + 1]))
  {
    var k := ks[i];
    var f1 := Flag(cap[k] < 0.0, Violation(k, CapNegative));
    var f2 := Flag(init[k] > cap[k], Violation(k, InitAboveCap));
    var f3 := Flag(cur[k] > cap[k], Violation(k, CurAboveCap));
    AppendFlag(e0, e1, cap[k] < 0.0, Violation(k, CapNegative));
    AppendFlag(e1, e2, init[k] > cap[k], Violation(k, InitAboveCap));
    AppendFlag(e2, e3, cur[k] > cap[k], Violation(k, CurAboveCap));
    var front := Violations(init, cur, cap, ks[..i]);
    ViolationsStep(init, cur, cap, ks, i);
    assert ChannelViolations(init, cur, cap, k) == f1 + f2 + f3;
    MessagesAppend(f1, f2);
    MessagesAppend(f1 + f2, f3);
    MessagesAppend(front, f1 + f2 + f3);
    calc {
      e3;
      e0 + Messages(f1) + Messages(f2) + Messages(f3);
      { Regroup(e0, Messages(f1), Messages(f2), Messages(f3)); }
      e0 + (Messages(f1) + Messages(f2) + Messages(f3));
      e0 + (Messages(f1 + f2) + Messages(f3));
      Messages(front) + (Messages(f1 + f2) + Messages(f3));
      Messages(front) + Messages(f1 + f2 + f3);
      Messages(front + (f1 + f2 + f3));
      Messages(Violations(init, cur, cap, ks[..i + 1]));
    }
  }

  lemma InFrontOrLast(ks: seq<Stat>, s: Stat)
    requires ks != []
    ensures s in ks <==> s in ks[..|ks| - 1] || s == ks[|ks| - 1]
  {
    assert ks == ks[..|ks| - 1] + [ks[|ks| - 1]];
  }

  /** A violation is reported exactly when its channel is checked and its check fails. */
  lemma {:induction false} ViolationsMembers(init: Channels, cur: Channels, cap: Channels, ks: seq<Stat>, v: Violation)
    requires Covers(init) && Covers(cur) && Covers(cap)
    ensures v in Violations(init, cur, cap, ks) <==> v.stat in ks && Fails(v.check, init[v.stat], cur[v.stat], cap[v.stat])
    decreases |ks|
  {
    if ks != [] {
      var front := ks[..|ks| - 1];
      var last := ks[|ks| - 1];
      ViolationsMembers(init, cur, cap, front, v);
      ChannelViolationsSpec(init, cur, cap, last);
      assert v in Violations(init, cur, cap, ks) <==> v in Violations(init, cur, cap, front) || v in ChannelViolations(init, cur, cap, last);
      InFrontOrLast(ks, v.stat);
    }
  }

  /** No message at all exactly when every channel passes every check. */
  lemma {:induction false} NoViolationsIffConsistent(init: Channels, cur: Channels, cap: Channels, ks: seq<Stat>)
    requires Covers(init) && Covers(cur) && Covers(cap)
    ensures Violations(init, cur, cap, ks) == [] <==> AllConsistent(init, cur, cap, ks)
    decreases |ks|
  {
    if ks != [] {
      var front := ks[..|ks| - 1];
      var last := ks[|ks| - 1];
      NoViolationsIffConsistent(init, cur, cap, front);
      ChannelViolationsSpec(init, cur, cap, last);
      EmptyAppend(Violations(init, cur, cap, front), ChannelViolations(init, cur, cap, last));
      AllConsistentSnoc(init, cur, cap, ks);
    }
  }

  /** Every channel in ks passes every check. */
  predicate AllConsistent(init: Channels, cur: Channels, cap: Channels, ks: seq<Stat>)
    requires Covers(init) && Covers(cur) && Covers(cap)
  {
    forall i :: 0 <= i < |ks| ==> Consistent(init[ks[i]], cur[ks[i]], cap[ks[i]])
  }

  lemma AllConsistentSnoc(init: Channels, cur: Channels, cap: Channels, ks: seq<Stat>)
    requires Covers(init) && Covers(cur) && Covers(cap)
    requires ks != []
    ensures AllConsistent(init, cur, cap, ks) <==>
      AllConsistent(init, cur, cap, ks[..|ks| - 1]) && Consistent(init[ks[|ks| - 1]], cur[ks[|ks| - 1]], cap[ks[|ks| - 1]])
  {
    var front := ks[..|ks| - 1];
    assert forall i :: 0 <= i < |front| ==> front[i] == ks[i];
  }

  lemma EmptyAppend<T>(a: seq<T>, b: seq<T>)
    ensures a + b == [] <==> a == [] && b == []
  {
    if a + b == [] {
      assert |a + b| == |a| + |b|;
    }
  }

  /** Validate returns no message exactly when all seven channels are consistent. */
  lemma ValidateAcceptsIffConsistent(init: Channels, cur: Channels, cap: Channels)
    requires Covers(init) && Covers(cur) && Covers(cap)
    ensures Messages(Violations(init, cur, cap, STATS)) == [] <==> forall k: Stat :: Consistent(init[k], cur[k], cap[k])
  {
    NoViolationsIffConsistent(init, cur, cap, STATS);
    if AllConsistent(init, cur, cap, STATS) {
      forall k: Stat ensures Consistent(init[k], cur[k], cap[k]) {
        assert STATS[Index(k)] == k;
      }
    }
  }

  /** At most three messages per channel. */
  lemma {:induction false} ViolationsCount(init: Channels, cur: Channels, cap: Channels, ks: seq<Stat>)
    requires Covers(init) && Covers(cur) && Covers(cap)
    ensures |Violations(init, cur, cap, ks)| <= 3 * |ks|
    decreases |ks|
  {
    if ks != [] {
      ViolationsCount(init, cur, cap, ks[..|ks| - 1]);
    }
  }

  /** Violation v is reported before w: an earlier channel, or the same channel and an earlier check. */
  predicate Before(v: Violation, w: Violation)
  {
    Index(v.stat) < Index(w.stat) || (v.stat == w.stat && CheckRank(v.check) < CheckRank(w.check))
  }

  /** Every violation is reported before each one after it. */
  predicate Ordered(vs: seq<Violation>)
  {
    forall i, j :: 0 <= i < j < |vs| ==> Before(vs[i], vs[j])
  }

  /** Channels listed in the order of STATS, each at most once. */
  predicate Increasing(ks: seq<Stat>)
  {
    forall i, j :: 0 <= i < j < |ks| ==> Index(ks[i]) < Index(ks[j])
  }

  /** Over channels in STATS order the report is ordered by channel, then by check. */
  lemma {:induction false} ViolationsOrdered(init: Channels, cur: Channels, cap: Channels, ks: seq<Stat>)
    requires Covers(init) && Covers(cur) && Covers(cap)
    requires Increasing(ks)
    ensures Ordered(Violations(init, cur, cap, ks))
    decreases |ks|
  {
    if ks != [] {
      var front := ks[..|ks| - 1];
      var last := ks[|ks| - 1];
      ViolationsOrdered(init, cur, cap, front);
      var a := Violations(init, cur, cap, front);
      var b := ChannelViolations(init, cur, cap, last);
      ChannelViolationsSpec(init, cur, cap, last);
      forall i | 0 <= i < |a|
        ensures Index(a[i].stat) < Index(last)
      {
        ViolationsMembers(init, cur, cap, front, a[i]);
        var n :| 0 <= n < |front| && front[n] == a[i].stat;
      }
      assert forall v :: v in b ==> v.stat == last;
      assert forall i, j :: 0 <= i < j < |b| ==> CheckRank(b[i].check) < CheckRank(b[j].check);
      OrderedAppend(a, b, last);
    }
  }

  /** A report ordered up to channel last, followed by last's checks in order, stays ordered. */
  lemma OrderedAppend(a: seq<Violation>, b: seq<Violation>, last: Stat)
    requires Ordered(a)
    requires forall i :: 0 <= i < |a| ==> Index(a[i].stat) < Index(last)
    requires forall v :: v in b ==> v.stat == last
    requires forall i, j :: 0 <= i < j < |b| ==> CheckRank(b[i].check) < CheckRank(b[j].check)
    ensures Ordered(a + b)
  {
    var vs := a + b;
    forall i, j | 0 <= i < j < |vs|
      ensures Before(vs[i], vs[j])
    {
      if j < |a| {
        assert vs[i] == a[i] && vs[j] == a[j];
      } else if i < |a| {
        assert vs[i] == a[i] && vs[j] == b[j - |a|];
        assert b[j - |a|] in b;
      } else {
        assert vs[i] == b[i - |a|] && vs[j] == b[j - |a|];
        assert b[i - |a|] in b && b[j - |a|] in b;
      }
    }
  }

  lemma StatsIncreasing()
    ensures Increasing(STATS)
  {
    forall i, j | 0 <= i < j < |STATS|
      ensures Index(STATS[i]) < Index(STATS[j])
    {
      IndexOfStats(i);
      IndexOfStats(j);
    }
  }

  /**
   * The report over all seven channels is ordered by channel, then by check;
   * so no check is reported twice, and there are at most 21 messages.
   */
  lemma ValidateReportsEachOnce(init: Channels, cur: Channels, cap: Channels)
    requires Covers(init) && Covers(cur) && Covers(cap)
    ensures var vs := Violations(init, cur, cap, STATS);
      Ordered(vs) && |vs| <= 21 && forall i, j :: 0 <= i < j < |vs| ==> vs[i] != vs[j]
  {
    ViolationsCount(init, cur, cap, STATS);
    StatsIncreasing();
    ViolationsOrdered(init, cur, cap, STATS);
  }

  /**
   * Message i of the report starts with the key of the channel it is about,
   * and that channel fails the check the message describes.
   */
  lemma ValidateMessagesKeyed(init: Channels, cur: Channels, cap: Channels)
    requires Covers(init) && Covers(cur) && Covers(cap)
    ensures var vs := Violations(init, cur, cap, STATS);
      forall i :: 0 <= i < |vs| ==>
        && Key(vs[i].stat) + ": " <= Messages(vs)[i]
        && Fails(vs[i].check, init[vs[i].stat], cur[vs[i].stat], cap[vs[i].stat])
  {
    var vs := Violations(init, cur, cap, STATS);
    forall i | 0 <= i < |vs|
      ensures Key(vs[i].stat) + ": " <= Messages(vs)[i]
      ensures Fails(vs[i].check, init[vs[i].stat], cur[vs[i].stat], cap[vs[i].stat])
    {
      ViolationsMembers(init, cur, cap, STATS, vs[i]);
      MessageKeyed(vs[i]);
    }
  }

  lemma MessageKeyed(v: Violation)
    ensures Key(v.stat) + ": " <= Message(v)
  {
  }

  /**
   * Inputs that pass the check (see ValidateAcceptsIffConsistent) and have no
   * negative current value reach the engine with exact shares: the clip in
   * the normalisation never bites.
   */
  lemma AcceptedSharesExact(u: UnitInput, k: Stat)
    requires u.Complete()
    requires forall k: Stat :: Consistent(u.init[k], u.cur[k], u.cap[k])
    requires 0.0 <= u.cur[k] && 0.0 < u.cap[k]
    ensures NormByCap(u.cur, u.cap)[k] == u.cur[k] / u.cap[k]
  {
    assert Consistent(u.init[k], u.cur[k], u.cap[k]);
    CapShareExact(u.cur[k], u.cap[k]);
  }
}
