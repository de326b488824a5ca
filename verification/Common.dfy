/** What every part uses: optional values, actor ids, and a few facts about sequences. */
module Common {
  type ActorId = nat

  datatype Option<+T> = None | Some(value: T)

  /** No element occurs twice. */
  ghost predicate Distinct<T>(s: seq<T>) {
    forall i, j :: 0 <= i < j < |s| ==> s[i] != s[j]
  }

  function Mapped<T, U>(f: T -> U, s: seq<T>): (mapped: seq<U>)
    ensures |mapped| == |s| && forall i :: 0 <= i < |s| ==> mapped[i] == f(s[i])
  {
    seq(|s|, i requires 0 <= i < |s| => f(s[i]))
  }

  function Elements<T>(s: seq<T>): set<T> {
    set x | x in s
  }

  lemma DistinctIsSet<T>(s: seq<T>, bound: set<T>)
    requires Distinct(s)
    requires forall x :: x in s ==> x in bound
    ensures |s| <= |bound|
    decreases s
  {
    if s != [] {
      forall x | x in s[1..] ensures x in bound - {s[0]} {
        var i :| 0 <= i < |s[1..]| && s[1..][i] == x;
        assert s[i + 1] == x;
      }
      DistinctIsSet(s[1..], bound - {s[0]});
    }
  }
}
