/** The optional value used wherever the program has `None`, `null` or an absent dictionary key. */
module Options {
  datatype Option<+T> = None | Some(value: T) {
    function GetOr(default: T): T {
      if Some? then value else default
    }
  }

  /** `dict.get(key)`. */
  function Get<K, V>(m: map<K, V>, key: K): Option<V> {
    if key in m then Some(m[key]) else None
  }

  /** The results of a loop that gives up at the first missing one. */
  function Collect<S, T>(s: seq<S>, f: S -> Option<T>): Option<seq<T>> {
    if s == [] then Some([])
    else
      var n := |s| - 1;
      var before, last := Collect(s[..n], f), f(s[n]);
      if before.None? || last.None? then None else Some(before.value + [last.value])
  }

  lemma CollectNext<S, T>(s: seq<S>, n: nat, f: S -> Option<T>)
    requires n < |s|
    ensures Collect(s[..n + 1], f)
         == if Collect(s[..n], f).None? || f(s[n]).None? then None
            else Some(Collect(s[..n], f).value + [f(s[n]).value])
  {
    assert s[..n + 1][..n] == s[..n];
  }

  lemma {:induction false} CollectStops<S, T>(s: seq<S>, n: nat, f: S -> Option<T>)
    requires n <= |s| && Collect(s[..n], f).None?
    ensures Collect(s, f).None?
    decreases |s|
  {
    if n == |s| {
      assert s[..n] == s;
    } else {
      assert s[..|s| - 1][..n] == s[..n];
      CollectStops(s[..|s| - 1], n, f);
    }
  }

  lemma {:induction false} CollectIs<S, T>(s: seq<S>, f: S -> Option<T>)
    ensures Collect(s, f).Some? <==> forall k :: 0 <= k < |s| ==> f(s[k]).Some?
    ensures Collect(s, f).Some? ==>
              && |Collect(s, f).value| == |s|
              && forall k :: 0 <= k < |s| ==> f(s[k]) == Some(Collect(s, f).value[k])
  {
    if s != [] {
      var n := |s| - 1;
      CollectIs(s[..n], f);
      assert forall k :: 0 <= k < n ==> s[..n][k] == s[k];
    }
  }
}
