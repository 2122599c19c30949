/**
 The string keys under which the scheduler reserves training targets, and what the string
 test for a busy target means.
 */
module TargetKeys {
  import opened Common
  import Decimal

  datatype TrainingDevice = TrainingDevice(kind: string, index: Option<nat>)

  datatype Payload =
    | Local
    | Remote(trainer: string, onBatch: bool, policy: string, device: Option<TrainingDevice>)

  const IMPORT_KEY := "dataset_import"

  function IndexText(index: Option<nat>): string {
    if index.None? then "None" else Decimal.Render(index.value)
  }

  /** `target_key` */
  function TargetKey(p: Payload): string {
    match p
    case Local => "local"
    case Remote(trainer, onBatch, policy, device) =>
      if onBatch then "batch:" + (trainer + (":" + policy))
      else if device.Some? then
        "remote:" + (trainer + (":" + (device.value.kind + (":" + IndexText(device.value.index)))))
      else "remote:" + trainer
  }

  /** One side of `_target_is_busy`: a reservation of `key` blocks `target`. */
  predicate Blocks(key: string, target: string) {
    || target == key
    || ("remote:" <= target && (target + ":" <= key || key + ":" <= target))
  }

  /** `_target_is_busy` */
  predicate TargetIsBusy(target: string, active: set<string>) {
    || target in active
    || ("remote:" <= target && exists key :: key in active && (target + ":" <= key || key + ":" <= target))
  }

  lemma BusyMeansBlocked(target: string, active: set<string>)
    ensures TargetIsBusy(target, active) <==> exists key :: key in active && Blocks(key, target)
  {
    if target in active {
      assert Blocks(target, target);
    }
    if key :| key in active && Blocks(key, target) {
      assert TargetIsBusy(target, active);
    }
    if "remote:" <= target && exists key :: key in active && (target + ":" <= key || key + ":" <= target) {
      var key :| key in active && (target + ":" <= key || key + ":" <= target);
      assert Blocks(key, target);
    }
  }

  // ------------------------------------------------------------------------- segments

  /** The colon-separated segments of a key. */
  function Segments(s: string): (r: seq<string>)
    ensures |r| >= 1
  {
    if s == "" then [""]
    else
      var rest := Segments(s[1..]);
      if s[0] == ':' then [""] + rest else [[s[0]] + rest[0]] + rest[1..]
  }

  /** The string test is exactly the proper-prefix test on segments. */
  lemma {:induction false} ColonPrefixIsSegmentPrefix(a: string, b: string)
    ensures a + ":" <= b <==> Segments(a) < Segments(b)
  {
    if a == "" {
      if b != "" && b[0] == ':' {
        assert Segments(b)[0] == "";
      }
    } else if b == "" {
    } else {
      ColonPrefixIsSegmentPrefix(a[1..], b[1..]);
      assert a + ":" == [a[0]] + (a[1..] + ":");
      var ra, rb := Segments(a[1..]), Segments(b[1..]);
      if a[0] == b[0] {
        HeadsAgree(a, b);
        if a[0] == ':' {
          assert Segments(a)[1..] == ra && Segments(b)[1..] == rb;
        } else {
          assert Segments(a)[1..] == ra[1..] && Segments(b)[1..] == rb[1..];
          assert Segments(a)[0] == [a[0]] + ra[0] && Segments(b)[0] == [b[0]] + rb[0];
          ConsPrefix(ra, rb, a[0]);
        }
      } else {
        assert Segments(a)[0] != Segments(b)[0] by {
          if a[0] == ':' {
            assert Segments(a)[0] == "" && Segments(b)[0] == [b[0]] + rb[0];
          } else {
            assert Segments(a)[0] == [a[0]] + ra[0];
            assert Segments(a)[0][0] == a[0];
          }
        }
      }
    }
  }

  lemma HeadsAgree(a: string, b: string)
    requires a != "" && b != "" && a[0] == b[0]
    ensures a + ":" <= b <==> a[1..] + ":" <= b[1..]
  {
    assert a + ":" == [a[0]] + (a[1..] + ":");
    assert b == [b[0]] + b[1..];
    if a[1..] + ":" <= b[1..] {
      assert b == [a[0]] + ((a[1..] + ":") + b[1..][|a|..]);
    }
    if a + ":" <= b {
      assert b[..|a| + 1] == a + ":";
      assert b[1..][..|a|] == (a + ":")[1..];
    }
  }

  lemma ConsPrefix(ra: seq<string>, rb: seq<string>, c: char)
    requires |ra| >= 1 && |rb| >= 1
    ensures ra < rb <==> [[c] + ra[0]] + ra[1..] < [[c] + rb[0]] + rb[1..]
  {
    var a, b := [[c] + ra[0]] + ra[1..], [[c] + rb[0]] + rb[1..];
    if a < b {
      assert a[0] == b[0];
      assert ra[0] == a[0][1..] && rb[0] == b[0][1..];
      forall i | 0 <= i < |ra| ensures ra[i] == rb[i] {
        if i > 0 {
          assert a[i] == ra[i] && b[i] == rb[i];
        }
      }
    }
    if ra < rb {
      assert ra[0] == rb[0];
      forall i | 0 <= i < |a| ensures a[i] == b[i] {
        if i > 0 {
          assert a[i] == ra[i] && b[i] == rb[i];
        }
      }
    }
  }

  predicate NoColon(s: string) {
    ':' !in s
  }

  lemma {:induction false} SingleSegment(s: string)
    requires NoColon(s)
    ensures Segments(s) == [s]
  {
    if s != "" {
      SingleSegment(s[1..]);
      assert [s[0]] + s[1..] == s;
    }
  }

  lemma {:induction false} SegmentsOfJoin(a: string, b: string)
    requires NoColon(a)
    ensures Segments(a + (":" + b)) == [a] + Segments(b)
  {
    if a == "" {
      assert (a + (":" + b))[1..] == b;
    } else {
      SegmentsOfJoin(a[1..], b);
      assert (a + (":" + b))[1..] == a[1..] + (":" + b);
      assert [a[0]] + a[1..] == a;
    }
  }

  // -------------------------------------------------------------------- what keys mean

  /** Trainer ids, policies and device kinds of a payload contain no colon. */
  predicate WellFormed(p: Payload) {
    p.Remote? ==> NoColon(p.trainer) && (p.device.Some? ==> NoColon(p.device.value.kind))
  }

  /** The two jobs may not run at the same time. */
  predicate SameSlot(p: Payload, q: Payload) {
    || (p.Local? && q.Local?)
    || (p.Remote? && q.Remote? && p.onBatch && q.onBatch && p.trainer == q.trainer && p.policy == q.policy)
    || (p.Remote? && q.Remote? && !p.onBatch && !q.onBatch && p.trainer == q.trainer
        && (p.device.None? || q.device.None? || p.device == q.device))
  }

  function KeySegments(p: Payload): seq<string> {
    match p
    case Local => ["local"]
    case Remote(trainer, onBatch, policy, device) =>
      if onBatch then ["batch", trainer] + Segments(policy)
      else if device.Some? then ["remote", trainer, device.value.kind, IndexText(device.value.index)]
      else ["remote", trainer]
  }

  lemma IndexTextHasNoColon(index: Option<nat>)
    ensures NoColon(IndexText(index))
  {
    if index.Some? {
      assert forall i :: 0 <= i < |Decimal.Render(index.value)| ==> Decimal.IsDigit(Decimal.Render(index.value)[i]);
    }
  }

  lemma IndexTextInjective(i: Option<nat>, j: Option<nat>)
    requires IndexText(i) == IndexText(j)
    ensures i == j
  {
    assert i.Some? ==> Decimal.IsDigit(IndexText(i)[0]);
    assert j.Some? ==> Decimal.IsDigit(IndexText(j)[0]);
    if i.Some? && j.Some? {
      Decimal.RenderInjective(i.value, j.value);
    }
  }

  lemma KeyHasSegments(p: Payload)
    requires WellFormed(p)
    ensures Segments(TargetKey(p)) == KeySegments(p)
  {
    match p
    case Local => SingleSegment("local");
    case Remote(trainer, onBatch, policy, device) =>
      if onBatch {
        SegmentsOfJoin(trainer, policy);
        SegmentsOfJoin("batch", trainer + (":" + policy));
        assert "batch:" + (trainer + (":" + policy)) == "batch" + (":" + (trainer + (":" + policy)));
      } else if device.Some? {
        var kind, index := device.value.kind, IndexText(device.value.index);
        IndexTextHasNoColon(device.value.index);
        SingleSegment(index);
        SegmentsOfJoin(kind, index);
        SegmentsOfJoin(trainer, kind + (":" + index));
        SegmentsOfJoin("remote", trainer + (":" + (kind + (":" + index))));
        assert TargetKey(p) == "remote" + (":" + (trainer + (":" + (kind + (":" + index)))));
      } else {
        SingleSegment(trainer);
        SegmentsOfJoin("remote", trainer);
        assert TargetKey(p) == "remote" + (":" + trainer);
      }
  }

  lemma RemoteKeys(p: Payload)
    ensures "remote:" <= TargetKey(p) <==> p.Remote? && !p.onBatch
  {
    if p.Local? {
      assert TargetKey(p)[0] == 'l';
    } else if p.onBatch {
      assert TargetKey(p)[0] == 'b';
    }
  }

  lemma PolicySegmentsInjective(p: string, q: string)
    requires Segments(p) == Segments(q)
    ensures p == q
    decreases |p|
  {
    if p != "" && q != "" {
      var rp, rq := Segments(p[1..]), Segments(q[1..]);
      if p[0] == ':' || q[0] == ':' {
        assert Segments(p)[0] == Segments(q)[0];
        assert p[0] == ':' && q[0] == ':';
        assert rp == Segments(p)[1..] && rq == Segments(q)[1..];
      } else {
        assert Segments(p)[0] == [p[0]] + rp[0] && Segments(q)[0] == [q[0]] + rq[0];
        assert p[0] == Segments(p)[0][0] && rp[0] == Segments(p)[0][1..] && rq[0] == Segments(q)[0][1..];
        assert rp == [rp[0]] + Segments(p)[1..] && rq == [rq[0]] + Segments(q)[1..];
      }
      PolicySegmentsInjective(p[1..], q[1..]);
      assert p == [p[0]] + p[1..] && q == [q[0]] + q[1..];
    }
  }

  /** Reservation keys conflict exactly for jobs that compete for a target: the local
      machine, the same batch queue, the same remote GPU, or the same remote trainer when
      either job may use any of its GPUs. */
  lemma KeysConflictIff(p: Payload, q: Payload)
    requires WellFormed(p) && WellFormed(q)
    ensures Blocks(TargetKey(p), TargetKey(q)) <==> SameSlot(p, q)
  {
    var a, b := TargetKey(p), TargetKey(q);
    KeyHasSegments(p);
    KeyHasSegments(q);
    RemoteKeys(p);
    RemoteKeys(q);
    ColonPrefixIsSegmentPrefix(a, b);
    ColonPrefixIsSegmentPrefix(b, a);
    var sa, sb := KeySegments(p), KeySegments(q);
    if a == b {
      assert sa == sb;
    }
    if sa == sb {
      PolicySegmentsInjective(a, b);
    }
    assert Blocks(a, b) <==> sa == sb || (q.Remote? && !q.onBatch && (sa < sb || sb < sa));
    SegmentsMeanSlots(p, q);
  }

  lemma SegmentsMeanSlots(p: Payload, q: Payload)
    ensures KeySegments(p) == KeySegments(q)
            || (q.Remote? && !q.onBatch && (KeySegments(p) < KeySegments(q) || KeySegments(q) < KeySegments(p)))
            <==> SameSlot(p, q)
  {
    var sa, sb := KeySegments(p), KeySegments(q);
    if p.Remote? && q.Remote? && p.onBatch && q.onBatch {
      assert sa[0] == "batch" && sa[1] == p.trainer && sa[2..] == Segments(p.policy);
      assert sb[0] == "batch" && sb[1] == q.trainer && sb[2..] == Segments(q.policy);
      if sa == sb {
        PolicySegmentsInjective(p.policy, q.policy);
      }
    } else if p.Remote? && q.Remote? && !p.onBatch && !q.onBatch {
      RemoteSegmentsMeanSlots(p, q);
    } else {
      assert sa[0] != sb[0] || (p.Local? && q.Local?);
    }
  }

  lemma RemoteSegmentsMeanSlots(p: Payload, q: Payload)
    requires p.Remote? && q.Remote? && !p.onBatch && !q.onBatch
    ensures KeySegments(p) == KeySegments(q) || KeySegments(p) < KeySegments(q) || KeySegments(q) < KeySegments(p)
            <==> p.trainer == q.trainer && (p.device.None? || q.device.None? || p.device == q.device)
  {
    var sa, sb := KeySegments(p), KeySegments(q);
    if p.device.Some? && q.device.Some? {
      if sa == sb {
        assert sa[2] == sb[2] && sa[3] == sb[3];
        IndexTextInjective(p.device.value.index, q.device.value.index);
      }
    } else if p.device.Some? {
      assert sa[..2] == ["remote", p.trainer];
      assert sb == ["remote", q.trainer];
      assert sb < sa <==> sb[1] == sa[1];
    } else if q.device.Some? {
      assert sb[..2] == ["remote", q.trainer];
      assert sa == ["remote", p.trainer];
      assert sa < sb <==> sa[1] == sb[1];
    }
  }

  // -------------------------------------------------------------------- sets of keys

  /** Keys the scheduler can hold. */
  predicate WellKey(k: string) {
    k == "local" || k == IMPORT_KEY || "batch:" <= k || "remote:" <= k
  }

  lemma TargetKeyIsWell(p: Payload)
    ensures WellKey(TargetKey(p)) && TargetKey(p) != IMPORT_KEY
  {
    match p
    case Local =>
    case Remote(_, onBatch, _, _) =>
      assert TargetKey(p)[0] == if onBatch then 'b' else 'r';
  }

  lemma BlocksIsSymmetric(a: string, b: string)
    requires WellKey(a) && WellKey(b) && Blocks(a, b)
    ensures Blocks(b, a)
  {
    if a != b {
      if b + ":" <= a {
        assert a[..7] == b[..7];
      } else {
        assert b[..|a| + 1] == a + ":";
        assert "remote:" <= a by {
          if a == "local" || a == IMPORT_KEY || "batch:" <= a {
            assert a[0] != 'r';
            assert b[0] == a[0];
          }
        }
      }
    }
  }
}
