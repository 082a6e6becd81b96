/** The 30-minute error throttle of `findAvailableSite` in
    campground-scanner.js: the `errors` dictionary maps an error message to
    the time (integer milliseconds) of its last notification. */
module ErrorThrottle {

  /** `30*60*1000` */
  const Cooldown: int := 30 * 60 * 1000

  type Records = map<string, int>

  /** `errors[msg] > now - 30*60*1000` is false: no record (`undefined`
      compares false), or a record at or before `now` minus the cooldown. */
  predicate ShouldNotify(errors: Records, msg: string, now: int) {
    msg !in errors || errors[msg] <= now - Cooldown
  }

  /** The `catch` of `findAvailableSite`: decide with the clock read at
      `checkedAt`; after notifying, record the clock read again at `recordedAt`. */
  function Report(errors: Records, msg: string, checkedAt: int, recordedAt: int): (r: (bool, Records))
    ensures r.0 <==> msg !in errors || errors[msg] <= checkedAt - Cooldown
    ensures r.0 ==> r.1 == errors[msg := recordedAt]
    ensures !r.0 ==> r.1 == errors && errors[msg] > checkedAt - Cooldown
    ensures forall m :: m != msg ==> (m in r.1 <==> m in errors) && (m in errors ==> r.1[m] == errors[m])
  {
    if ShouldNotify(errors, msg, checkedAt) then (true, errors[msg := recordedAt]) else (false, errors)
  }

  /** One caught error: its message and the two clock readings of its `catch`. */
  datatype Failure = Failure(message: string, checkedAt: int, recordedAt: int)

  /** The clock does not run backwards inside one `catch`. */
  ghost predicate Clocked(fs: seq<Failure>) {
    forall k :: 0 <= k < |fs| ==> fs[k].checkedAt <= fs[k].recordedAt
  }

  /** The throttle over a sequence of failures: which of them notified, and the records afterwards. */
  function Replay(errors: Records, fs: seq<Failure>): (r: (seq<bool>, Records))
    ensures |r.0| == |fs|
    ensures errors.Keys <= r.1.Keys
    decreases |fs|
  {
    if fs == [] then ([], errors)
    else
      var (flags, e) := Replay(errors, fs[..|fs| - 1]);
      var f := fs[|fs| - 1];
      var (notified, e') := Report(e, f.message, f.checkedAt, f.recordedAt);
      (flags + [notified], e')
  }

  /** Replaying two runs of failures is replaying the second from the records the first left. */
  lemma {:induction false} ReplayAppend(errors: Records, fs1: seq<Failure>, fs2: seq<Failure>)
    ensures var mid := Replay(errors, fs1).1;
      Replay(errors, fs1 + fs2).0 == Replay(errors, fs1).0 + Replay(mid, fs2).0 &&
      Replay(errors, fs1 + fs2).1 == Replay(mid, fs2).1
    decreases |fs2|
  {
    if fs2 == [] {
      assert fs1 + fs2 == fs1;
    } else {
      var n := |fs2| - 1;
      var all := fs1 + fs2;
      assert all[..|all| - 1] == fs1 + fs2[..n] && all[|all| - 1] == fs2[n];
      ReplayAppend(errors, fs1, fs2[..n]);
    }
  }

  lemma ClockedAppend(fs1: seq<Failure>, fs2: seq<Failure>)
    requires Clocked(fs1) && Clocked(fs2)
    ensures Clocked(fs1 + fs2)
  {
    assert forall k :: 0 <= k < |fs1 + fs2| ==> (fs1 + fs2)[k] == if k < |fs1| then fs1[k] else fs2[k - |fs1|];
  }

  /** Any two notifications of one message are at least the cooldown apart. */
  ghost predicate Spaced(fs: seq<Failure>, flags: seq<bool>)
    requires |flags| == |fs|
  {
    forall i, j :: 0 <= i < j < |fs| && flags[i] && flags[j] && fs[i].message == fs[j].message ==>
      fs[i].checkedAt + Cooldown <= fs[j].checkedAt
  }

  /** The record of every notified message is no earlier than each of its notifications. */
  ghost predicate RecordFloor(fs: seq<Failure>, flags: seq<bool>, errors: Records)
    requires |flags| == |fs|
  {
    forall i :: 0 <= i < |fs| && flags[i] ==> fs[i].message in errors && errors[fs[i].message] >= fs[i].checkedAt
  }

  /** One more failure keeps the notifications spaced and the records above them. */
  lemma SpacedStep(fs: seq<Failure>, flags: seq<bool>, e: Records)
    requires |fs| > 0 && |flags| == |fs| - 1
    requires fs[|fs| - 1].checkedAt <= fs[|fs| - 1].recordedAt
    requires Spaced(fs[..|fs| - 1], flags) && RecordFloor(fs[..|fs| - 1], flags, e)
    ensures var f := fs[|fs| - 1];
      var (notified, e') := Report(e, f.message, f.checkedAt, f.recordedAt);
      Spaced(fs, flags + [notified]) && RecordFloor(fs, flags + [notified], e')
  {
    var n := |fs| - 1;
    var prefix := fs[..n];
    var f := fs[n];
    var (notified, e') := Report(e, f.message, f.checkedAt, f.recordedAt);
    var flags' := flags + [notified];
    forall i, j | 0 <= i < j < |fs| && flags'[i] && flags'[j] && fs[i].message == fs[j].message
      ensures fs[i].checkedAt + Cooldown <= fs[j].checkedAt
    {
      assert fs[i] == prefix[i] && flags'[i] == flags[i];
      if j < n {
        assert fs[j] == prefix[j] && flags'[j] == flags[j];
      } else {
        assert prefix[i].checkedAt <= e[f.message];
      }
    }
    forall i | 0 <= i < |fs| && flags'[i]
      ensures fs[i].message in e' && e'[fs[i].message] >= fs[i].checkedAt
    {
      if i < n {
        assert fs[i] == prefix[i] && flags'[i] == flags[i];
        if notified && fs[i].message == f.message {
          assert prefix[i].checkedAt <= e[f.message];
        }
      }
    }
  }

  /** However the failures are timed, one message notifies at most once per cooldown window. */
  lemma {:induction false} ReplaySpaced(errors: Records, fs: seq<Failure>)
    requires Clocked(fs)
    ensures var (flags, e) := Replay(errors, fs); Spaced(fs, flags) && RecordFloor(fs, flags, e)
    decreases |fs|
  {
    if fs != [] {
      var n := |fs| - 1;
      assert Clocked(fs[..n]) by {
        assert forall k :: 0 <= k < n ==> fs[..n][k] == fs[k];
      }
      ReplaySpaced(errors, fs[..n]);
      var (flags, e) := Replay(errors, fs[..n]);
      SpacedStep(fs, flags, e);
    }
  }

  /** Notification `i` recorded `at` as the time of message `m`. */
  ghost predicate RecordedBy(fs: seq<Failure>, flags: seq<bool>, i: int, m: string, at: int)
    requires |flags| == |fs|
  {
    0 <= i < |fs| && flags[i] && fs[i].message == m && fs[i].recordedAt == at
  }

  /** Starting from no records, each record was written by a notification. */
  ghost predicate Explained(fs: seq<Failure>, flags: seq<bool>, errors: Records)
    requires |flags| == |fs|
  {
    forall m :: m in errors ==> exists i :: RecordedBy(fs, flags, i, m, errors[m])
  }

  /** Failure `j` was suppressed by notification `i`, recorded less than the cooldown before it. */
  ghost predicate SuppressedBy(fs: seq<Failure>, flags: seq<bool>, i: int, j: int)
    requires |flags| == |fs| && 0 <= j < |fs|
  {
    0 <= i < j && flags[i] && fs[i].message == fs[j].message && fs[i].recordedAt > fs[j].checkedAt - Cooldown
  }

  /** One more failure keeps every record explained and every suppression justified. */
  lemma SuppressedStep(prefix: seq<Failure>, f: Failure, flags: seq<bool>, e: Records)
    requires |flags| == |prefix|
    requires Explained(prefix, flags, e)
    requires forall j :: 0 <= j < |prefix| && !flags[j] ==> exists i :: SuppressedBy(prefix, flags, i, j)
    ensures var fs := prefix + [f];
      var (notified, e') := Report(e, f.message, f.checkedAt, f.recordedAt);
      Explained(fs, flags + [notified], e') &&
      forall j :: 0 <= j < |fs| && !(flags + [notified])[j] ==> exists i :: SuppressedBy(fs, flags + [notified], i, j)
  {
    var fs := prefix + [f];
    var n := |prefix|;
    var (notified, e') := Report(e, f.message, f.checkedAt, f.recordedAt);
    var flags' := flags + [notified];
    assert forall k :: 0 <= k < n ==> fs[k] == prefix[k] && flags'[k] == flags[k];
    forall m | m in e'
      ensures exists i :: RecordedBy(fs, flags', i, m, e'[m])
    {
      if notified && m == f.message {
        assert RecordedBy(fs, flags', n, m, e'[m]);
      } else {
        var i :| RecordedBy(prefix, flags, i, m, e[m]);
        assert RecordedBy(fs, flags', i, m, e'[m]);
      }
    }
    forall j | 0 <= j < |fs| && !flags'[j]
      ensures exists i :: SuppressedBy(fs, flags', i, j)
    {
      if j == n {
        var i :| RecordedBy(prefix, flags, i, f.message, e[f.message]);
        assert SuppressedBy(fs, flags', i, j);
      } else {
        var i :| SuppressedBy(prefix, flags, i, j);
        assert SuppressedBy(fs, flags', i, j);
      }
    }
  }

  /** Starting from no records, a failure is suppressed only by an earlier
      notification of the same message less than the cooldown before it. */
  lemma {:induction false} SuppressedOnlyWhenRecent(fs: seq<Failure>)
    ensures var (flags, e) := Replay(map[], fs);
      Explained(fs, flags, e) &&
      forall j :: 0 <= j < |fs| && !flags[j] ==> exists i :: SuppressedBy(fs, flags, i, j)
    decreases |fs|
  {
    if fs != [] {
      var n := |fs| - 1;
      SuppressedOnlyWhenRecent(fs[..n]);
      var (flags, e) := Replay(map[], fs[..n]);
      assert fs == fs[..n] + [fs[n]];
      SuppressedStep(fs[..n], fs[n], flags, e);
    }
  }

  /** Two failures with the same text five minutes apart notify once; forty minutes apart, twice. */
  lemma FiveAndFortyMinutes(msg: string, t: int)
    ensures Replay(map[], [Failure(msg, t, t), Failure(msg, t + 5 * 60 * 1000, t + 5 * 60 * 1000)]).0 == [true, false]
    ensures Replay(map[], [Failure(msg, t, t), Failure(msg, t + 40 * 60 * 1000, t + 40 * 60 * 1000)]).0 == [true, true]
  {
    var first := Failure(msg, t, t);
    var soon, late := Failure(msg, t + 5 * 60 * 1000, t + 5 * 60 * 1000), Failure(msg, t + 40 * 60 * 1000, t + 40 * 60 * 1000);
    assert [first, soon][..1] == [first] && [first][..0] == [];
    assert [first, late][..1] == [first];
    assert Replay(map[], []) == ([], map[]);
    assert [] + [true] == [true];
    assert Replay(map[], [first]) == ([true], map[msg := t]);
  }
}
