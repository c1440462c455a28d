/** The optional value used where the chart code can produce "no number" (NaN) or "no result". */
module Wrappers {
  datatype Option<+T> = None | Some(value: T)

  /** The empty sequence for None, the one-element sequence for Some: what a conditional `push` adds. */
  function OptionToSeq<T>(o: Option<T>): seq<T> {
    match o
    case None => []
    case Some(v) => [v]
  }

  /** The present values among the first n options, in order: what a loop of conditional pushes builds. */
  function SomesUpTo<T>(s: seq<Option<T>>, n: nat): (r: seq<T>)
    requires n <= |s|
    ensures |r| <= n
  {
    if n == 0 then [] else SomesUpTo(s, n - 1) + OptionToSeq(s[n - 1])
  }

  function Somes<T>(s: seq<Option<T>>): (r: seq<T>)
    ensures |r| <= |s|
  {
    SomesUpTo(s, |s|)
  }

  lemma {:induction false} SomesUpToSound<T>(s: seq<Option<T>>, n: nat, x: T)
    requires n <= |s| && x in SomesUpTo(s, n)
    ensures exists i :: 0 <= i < n && s[i] == Some(x)
  {
    if x in SomesUpTo(s, n - 1) {
      SomesUpToSound(s, n - 1, x);
    }
  }

  lemma {:induction false} SomesUpToComplete<T>(s: seq<Option<T>>, n: nat, i: nat)
    requires i < n <= |s| && s[i].Some?
    ensures s[i].value in SomesUpTo(s, n)
  {
    if i < n - 1 {
      SomesUpToComplete(s, n - 1, i);
    }
  }

  /** A value is collected exactly when some option holds it. */
  lemma SomesMembership<T>(s: seq<Option<T>>, x: T)
    ensures x in Somes(s) <==> exists i :: 0 <= i < |s| && s[i] == Some(x)
  {
    if x in Somes(s) {
      SomesUpToSound(s, |s|, x);
    }
    if exists i :: 0 <= i < |s| && s[i] == Some(x) {
      var i :| 0 <= i < |s| && s[i] == Some(x);
      SomesUpToComplete(s, |s|, i);
    }
  }
}
