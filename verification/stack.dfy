/** The stack primitives of the calculator. The stack is a sequence whose
    last element is the top, like the deque it models. */
module Stack {
  import opened Base
  import opened Values

  /** The items `n` successive pops return, in the order they come off. */
  function Popped(s: seq<Value>, n: nat): (r: seq<Value>)
    requires n <= |s|
    ensures |r| == n
    ensures forall j :: 0 <= j < n ==> r[j] == s[|s| - 1 - j]
    decreases n
  {
    if n == 0 then [] else [s[|s| - 1]] + Popped(s[..|s| - 1], n - 1)
  }

  function Reverse(xs: seq<Value>): (r: seq<Value>)
    ensures |r| == |xs|
    ensures forall j :: 0 <= j < |xs| ==> r[j] == xs[|xs| - 1 - j]
  {
    if |xs| == 0 then [] else Reverse(xs[1..]) + [xs[0]]
  }

  /** Duplicate the top `n` items in order: pop them, double the popped
      list and push it back reversed. */
  function DuplicateTop(s: seq<Value>, n: int): (r: Outcome<seq<Value>>)
    ensures r.Done? <==> 1 <= n <= |s|
    ensures !r.Exited?
    ensures r.Failed? ==> r.state == s
    ensures r.Failed? ==> r.error == (if |s| < n then InsufficientDepth else InvalidCount)
    ensures r.Done? ==> r.state == s + s[|s| - n..]
  {
    if |s| < n then Failed(s, InsufficientDepth)
    else if n < 1 then Failed(s, InvalidCount)
    else
      var taken := Popped(s, n);
      var pushed := Reverse(taken + taken);
      var t := s[..|s| - n] + pushed;
      assert pushed[..n] == s[|s| - n..];
      assert pushed[n..] == s[|s| - n..];
      assert pushed == pushed[..n] + pushed[n..];
      assert t == s + s[|s| - n..];
      Done(t)
  }

  /** `deque.rotate(n)`: every item moves `n` places towards the top,
      wrapping round to the bottom, so position `j` receives the item that
      was `n` places below it. */
  function Rotate(s: seq<Value>, n: int): (r: seq<Value>)
    ensures |r| == |s|
    ensures multiset(r) == multiset(s)
    ensures forall j :: 0 <= j < |s| ==> r[j] == s[(j - n) % |s|]
  {
    if |s| == 0 then s
    else
      var k := n % |s|;
      var r := s[|s| - k..] + s[..|s| - k];
      assert s == s[..|s| - k] + s[|s| - k..];
      forall j | 0 <= j < |s|
        ensures r[j] == s[(j - n) % |s|]
      {
        ModOfDifference(j, n, |s|);
        if j < k {
          ModAddModulus(j - k, |s|);
          ModSmall(j - k + |s|, |s|);
        } else {
          ModSmall(j - k, |s|);
        }
      }
      r
  }

  lemma ModSmall(x: int, m: int)
    requires 0 <= x < m
    ensures x % m == x
  {
  }

  lemma ModAddModulus(x: int, m: int)
    requires m > 0
    ensures (x + m) % m == x % m
  {
    ModUnique(x + m, m, x / m + 1, x % m);
  }

  /** Euclidean remainder is determined by any decomposition `q * m + r`. */
  lemma ModUnique(x: int, m: int, q: int, r: int)
    requires m > 0 && 0 <= r < m && x == q * m + r
    ensures x % m == r
  {
    var q0, r0 := x / m, x % m;
    assert q0 * m + r0 == q * m + r;
    assert (q0 - q) * m == q0 * m - q * m;
    if q0 > q {
      MulAtLeast(q0 - q, m);
    } else if q0 < q {
      MulAtLeast(q - q0, m);
    }
  }

  lemma {:induction false} MulAtLeast(a: int, m: int)
    requires a >= 1 && m > 0
    ensures a * m >= m
    decreases a
  {
    if a > 1 {
      MulAtLeast(a - 1, m);
      assert a * m == (a - 1) * m + m;
    }
  }

  lemma ModOfDifference(j: int, n: int, m: int)
    requires m > 0
    ensures (j - n) % m == (j - n % m) % m
  {
    var q := n / m;
    assert j - n == -q * m + (j - n % m);
    var x := j - n % m;
    ModUnique(j - n, m, x / m - q, x % m);
  }

  /** Moving `n` places round a cycle of `m` and back returns to the start. */
  lemma ModBack(j: int, n: int, m: int)
    requires 0 <= j < m
    ensures ((j + n) % m - n) % m == j
  {
    var q := (j + n) / m;
    ModUnique((j + n) % m - n, m, -q, j);
  }

  /** Rotating back by the same amount undoes a rotation. */
  lemma RotateBackRestores(s: seq<Value>, n: int)
    ensures Rotate(Rotate(s, n), -n) == s
  {
    if |s| > 0 {
      var r1 := Rotate(s, n);
      var r2 := Rotate(r1, -n);
      forall j | 0 <= j < |s|
        ensures r2[j] == s[j]
      {
        RotateBackAt(s, n, j);
      }
    }
  }

  lemma RotateBackAt(s: seq<Value>, n: int, j: int)
    requires 0 <= j < |s|
    ensures Rotate(Rotate(s, n), -n)[j] == s[j]
  {
    var r1 := Rotate(s, n);
    var p := (j - -n) % |s|;
    assert Rotate(r1, -n)[j] == r1[p];
    ModBack(j, n, |s|);
    assert r1[p] == s[(p - n) % |s|];
  }

  /** `drop_n_items_from_stack`: pop `n` items one at a time. When the stack
      runs out first, it has been emptied before the failure. */
  function DropN(s: seq<Value>, n: int): (r: Outcome<seq<Value>>)
    ensures !r.Exited?
    ensures r.Done? <==> n <= |s|
    ensures r.Done? ==> r.state == s[..if n <= 0 then |s| else |s| - n]
    ensures r.Failed? ==> r.state == [] && r.error == NotPossible
    decreases |s|
  {
    if n <= 0 then Done(s)
    else if |s| == 0 then Failed(s, NotPossible)
    else
      var r := DropN(s[..|s| - 1], n - 1);
      assert r.Done? ==> r.state == s[..|s| - n];
      r
  }

  /** Remove the item at position `p` (from the bottom) and push it on top. */
  function MoveToTop(s: seq<Value>, p: nat): (r: seq<Value>)
    requires p < |s|
    ensures |r| == |s|
    ensures r[|s| - 1] == s[p]
    ensures r[..|s| - 1] == s[..p] + s[p + 1..]
    ensures multiset(r) == multiset(s)
  {
    assert s == s[..p] + [s[p]] + s[p + 1..];
    s[..p] + s[p + 1..] + [s[p]]
  }

  /** `pick_nth_item`: the stack is indexed with `n - 1` as Python indexes a
      deque, so a positive `n` counts from the bottom and a non-positive one
      from the top; an `n` above the depth does nothing. */
  function PickNth(s: seq<Value>, n: Value): (r: Outcome<seq<Value>>)
    ensures !r.Exited?
    ensures r.Failed? ==> r.state == s && r.error == NotPossible
    ensures r.Done? ==> |r.state| == |s| && multiset(r.state) == multiset(s)
    ensures n.Int? && n.i > |s| ==> r == Done(s)
    ensures n.Int? && n.i <= -|s| ==> r.Failed?
    ensures n.Int? && 1 <= n.i <= |s| ==>
      r.Done? && r.state[|s| - 1] == s[n.i - 1] && r.state[..|s| - 1] == s[..n.i - 1] + s[n.i..]
    ensures n.Int? && -|s| < n.i <= 0 ==>
      && r.Done? && r.state[|s| - 1] == s[|s| - 1 + n.i]
      && r.state[..|s| - 1] == s[..|s| - 1 + n.i] + s[|s| + n.i..]
    ensures n.NonInt? ==> (r.Done? <==> FloatAbove(n.f, |s|))
    ensures n.NonInt? && FloatAbove(n.f, |s|) ==> r == Done(s)
  {
    match n
    case Int(k) =>
      if k > |s| then Done(s)
      else
        var index := k - 1;
        if index < -|s| then Failed(s, NotPossible)
        else Done(MoveToTop(s, if index >= 0 then index else |s| + index))
    case NonInt(f) =>
      if FloatAbove(f, |s|) then Done(s) else Failed(s, NotPossible)
  }

  /** `0 pick` picks the top item: the stack is unchanged. */
  lemma PickZeroKeepsStack(s: seq<Value>)
    requires |s| > 0
    ensures PickNth(s, Int(0)) == Done(s)
  {
    assert s[..|s| - 1] + s[|s|..] + [s[|s| - 1]] == s;
  }

  /** `-1 pick` exchanges the two top items, like `swap`. */
  lemma PickMinusOneSwaps(s: seq<Value>)
    requires |s| >= 2
    ensures PickNth(s, Int(-1)) == Done(s[..|s| - 2] + [s[|s| - 1], s[|s| - 2]])
  {
    var p := |s| - 2;
    assert s[..p] + s[p + 1..] + [s[p]] == s[..|s| - 2] + [s[|s| - 1], s[|s| - 2]];
  }

  /** Duplicating the top `n` items and then dropping `n` restores the stack. */
  lemma DropUndoesDuplicate(s: seq<Value>, n: int)
    requires 1 <= n <= |s|
    ensures DropN(DuplicateTop(s, n).state, n) == Done(s)
  {
  }
}
