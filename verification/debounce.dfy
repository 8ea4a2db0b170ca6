/**
 * The search box's debounce: every change of the input schedules a commit
 * 300 ms later and cancels the one still pending. Time is an abstract
 * integer clock in milliseconds.
 */
module Debounce {

  const Quiet: int := 300

  /** The input changed to `value` at time `at`. */
  datatype Keystroke = Keystroke(at: int, value: string)

  /** `debouncedSearch` was set to `value` at time `at`. */
  datatype Commit = Commit(at: int, value: string)

  /** Input changes arrive in strictly increasing time order. */
  predicate Chronological(ks: seq<Keystroke>) {
    forall i :: 0 < i < |ks| ==> ks[i - 1].at < ks[i].at
  }

  /** The timer of keystroke `i` fires unless the next change arrives
      before its deadline. A change exactly at the deadline comes after the
      timer, which was queued first. */
  predicate Fires(ks: seq<Keystroke>, i: nat)
    requires i < |ks|
  {
    i == |ks| - 1 || ks[i + 1].at >= ks[i].at + Quiet
  }

  /** The commits a sequence of input changes produces, in time order. */
  function Commits(ks: seq<Keystroke>): (cs: seq<Commit>)
    ensures |cs| <= |ks|
    ensures forall c :: c in cs ==> Keystroke(c.at - Quiet, c.value) in ks
    decreases |ks|
  {
    if |ks| == 0 then []
    else
      (if Fires(ks, 0) then [Commit(ks[0].at + Quiet, ks[0].value)] else [])
      + Commits(ks[1..])
  }

  /** Soundness: no input change happens during the quiet period before a
      commit. */
  lemma {:induction false} CommitsAreQuiet(ks: seq<Keystroke>)
    requires Chronological(ks)
    ensures forall c, k :: c in Commits(ks) && k in ks ==> !(c.at - Quiet < k.at < c.at)
    decreases |ks|
  {
    if |ks| > 0 {
      var rest := ks[1..];
      CommitsAreQuiet(rest);
      assert Chronological(rest);
      forall c, k | c in Commits(ks) && k in ks
        ensures !(c.at - Quiet < k.at < c.at)
      {
        if c in Commits(rest) {
          assert Keystroke(c.at - Quiet, c.value) in rest;
          var j :| 0 <= j < |rest| && rest[j] == Keystroke(c.at - Quiet, c.value);
          ChronologicalOrder(ks, 0, j + 1);
          if k != ks[0] {
            assert k in rest;
          }
        } else {
          assert c == Commit(ks[0].at + Quiet, ks[0].value);
          if k != ks[0] {
            var m :| 1 <= m < |ks| && ks[m] == k;
            ChronologicalOrder(ks, 1, m);
          }
        }
      }
    }
  }

  /** Times grow along a chronological sequence. */
  lemma ChronologicalOrder(ks: seq<Keystroke>, i: nat, j: nat)
    requires Chronological(ks)
    requires i <= j < |ks|
    ensures ks[i].at <= ks[j].at
    decreases j - i
  {
    if i < j {
      ChronologicalOrder(ks, i, j - 1);
    }
  }

  /** Completeness: the timer of every keystroke that is not interrupted
      commits its value. */
  lemma {:induction false} FiringKeystrokesCommit(ks: seq<Keystroke>, i: nat)
    requires i < |ks| && Fires(ks, i)
    ensures Commit(ks[i].at + Quiet, ks[i].value) in Commits(ks)
    decreases i
  {
    if i > 0 {
      FiringKeystrokesCommit(ks[1..], i - 1);
    }
  }

  /** The last input change always commits, `Quiet` after it, and it is the
      last commit. */
  lemma {:induction false} LastKeystrokeCommitsLast(ks: seq<Keystroke>)
    requires |ks| > 0
    ensures |Commits(ks)| > 0
    ensures Commits(ks)[|Commits(ks)| - 1] == Commit(ks[|ks| - 1].at + Quiet, ks[|ks| - 1].value)
    decreases |ks|
  {
    if |ks| > 1 {
      LastKeystrokeCommitsLast(ks[1..]);
    }
  }

  /** Changes at 0, 50, 100 and 350 ms commit once, at 650 ms, with the
      value typed last. */
  lemma BurstCommitsOnce(a: string, b: string, c: string, d: string)
    ensures Commits([Keystroke(0, a), Keystroke(50, b), Keystroke(100, c), Keystroke(350, d)]) == [Commit(650, d)]
  {
    var ks := [Keystroke(0, a), Keystroke(50, b), Keystroke(100, c), Keystroke(350, d)];
    assert Commits(ks[3..]) == [Commit(650, d)];
    assert ks[2..][1..] == ks[3..];
    assert Commits(ks[2..]) == [Commit(650, d)];
    assert ks[1..][1..] == ks[2..];
    assert Commits(ks[1..]) == [Commit(650, d)];
  }

  /** The committed search text at time `now`: the last commit at or before
      it, or the initial empty text. */
  function CommittedAt(commits: seq<Commit>, now: int): string
    decreases |commits|
  {
    if |commits| == 0 then ""
    else if commits[|commits| - 1].at <= now then commits[|commits| - 1].value
    else CommittedAt(commits[..|commits| - 1], now)
  }

  /** After the last deadline the committed text is the last value typed. */
  lemma SettlesOnLastValue(ks: seq<Keystroke>, now: int)
    requires |ks| > 0 && now >= ks[|ks| - 1].at + Quiet
    ensures CommittedAt(Commits(ks), now) == ks[|ks| - 1].value
  {
    LastKeystrokeCommitsLast(ks);
  }
}
