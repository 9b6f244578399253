/** Ordered search in a sequence: the shape shared by a chain of early-return
    checks and by a store lookup that returns the first matching document. */
module Search {
  import opened Data

  /** The index of the first element satisfying `p`, or `|s|` when there is none. */
  function FirstIndex<T>(s: seq<T>, p: T -> bool): (k: nat)
    ensures k <= |s|
    ensures forall j :: 0 <= j < k ==> !p(s[j])
    ensures k < |s| ==> p(s[k])
  {
    if s == [] || p(s[0]) then 0 else 1 + FirstIndex(s[1..], p)
  }

  /** The first element satisfying `p`, if any. */
  function Find<T>(s: seq<T>, p: T -> bool): (r: Option<T>)
    ensures r.None? <==> forall j :: 0 <= j < |s| ==> !p(s[j])
    ensures r.Some? ==> r.value in s && p(r.value)
  {
    var k := FirstIndex(s, p);
    if k < |s| then Some(s[k]) else None
  }

  /** Elements satisfying `p` are found before anything appended after them. */
  lemma {:induction false} FindAppend<T>(s: seq<T>, t: seq<T>, p: T -> bool)
    ensures Find(s + t, p) == if Find(s, p).Some? then Find(s, p) else Find(t, p)
  {
    if s == [] {
      assert s + t == t;
    } else if p(s[0]) {
      assert (s + t)[0] == s[0];
    } else {
      FindAppend(s[1..], t, p);
      assert (s + t)[1..] == s[1..] + t;
      assert FirstIndex(s + t, p) == 1 + FirstIndex(s[1..] + t, p);
      assert FirstIndex(s, p) == 1 + FirstIndex(s[1..], p);
    }
  }
}
