/** The key range that holds exactly the keys with a given prefix (`PrefixEndBytes`). */
module PrefixRange {
  import opened ByteOrder
  import opened MergeIteration

  /** The least byte string above every string with prefix `p`, if there is one. */
  function PrefixEnd(p: Bytes): Option<Bytes>
    requires p != []
  {
    var rest := if |p| == 1 then None else PrefixEnd(p[1..]);
    if rest.Some? then Some([p[0]] + rest.value)
    else if p[0] < 255 then Some([p[0] + 1])
    else None
  }

  /** A key has prefix `p` exactly when it lies in the range from `p` to `PrefixEnd(p)`. */
  lemma {:induction false} PrefixIsRange(p: Bytes, k: Bytes)
    requires p != []
    ensures HasPrefix(k, p) <==> InRange(k, Some(p), PrefixEnd(p))
  {
    if k != [] && k[0] == p[0] {
      if |p| == 1 {
        assert p[1..] == [] && k[..1] == p;
        assert !Less(k, p) && (p[0] < 255 ==> Less(k, [p[0] + 1]));
      } else {
        PrefixIsRange(p[1..], k[1..]);
        assert HasPrefix(k, p) <==> HasPrefix(k[1..], p[1..]) by {
          assert HasPrefix(k, p) ==> p[1..] == k[1..][..|p| - 1];
          assert HasPrefix(k[1..], p[1..]) ==> k[..|p|] == [k[0]] + k[1..][..|p| - 1] == [p[0]] + p[1..] == p;
        }
        assert PrefixEnd(p[1..]).Some? ==> ([p[0]] + PrefixEnd(p[1..]).value)[1..] == PrefixEnd(p[1..]).value;
      }
    } else if k != [] {
      assert k[0] > p[0] ==> p[0] < 255 && !Less(k, [p[0] + 1]);
    }
  }

  lemma {:induction false} PrefixEndSnoc(p: Bytes, b: byte)
    ensures b < 255 ==> PrefixEnd(p + [b]) == Some(p + [b + 1])
    ensures b == 255 ==> PrefixEnd(p + [b]) == if p == [] then None else PrefixEnd(p)
  {
    if p == [] {
      assert p + [b] == [b] && p + [b + 1] == [b + 1];
    } else {
      assert (p + [b])[1..] == p[1..] + [b];
      PrefixEndSnoc(p[1..], b);
      assert [p[0]] + (p[1..] + [b + 1]) == p + [b + 1];
      if |p| == 1 {
        assert p[1..] == [];
      }
    }
  }

  /** `PrefixEndBytes`. An empty prefix that is not nil makes the code index out of range. */
  method PrefixEndBytes(prefix: Option<Bytes>) returns (r: Option<Bytes>)
    requires prefix.Some? ==> prefix.value != []
    ensures prefix.None? ==> r.None?
    ensures prefix.Some? ==> r == PrefixEnd(prefix.value)
    ensures prefix.Some? ==> forall k :: HasPrefix(k, prefix.value) <==> InRange(k, prefix, r)
    ensures prefix.Some? ==> (r.None? <==> forall i :: 0 <= i < |prefix.value| ==> prefix.value[i] == 255)
  {
    if prefix.None? {
      return None;
    }
    var end := prefix.value;
    while true
      invariant end != [] && end <= prefix.value
      invariant PrefixEnd(end) == PrefixEnd(prefix.value)
      invariant forall i :: |end| <= i < |prefix.value| ==> prefix.value[i] == 255
      decreases |end|
    {
      var n := |end| - 1;
      assert end == end[..n] + [end[n]];
      PrefixEndSnoc(end[..n], end[n]);
      if end[n] != 255 {
        r := Some(end[..n] + [end[n] + 1]);
        break;
      } else {
        end := end[..n];
        if |end| == 0 {
          r := None;
          break;
        }
      }
    }
    forall k ensures HasPrefix(k, prefix.value) <==> InRange(k, prefix, r) {
      PrefixIsRange(prefix.value, k);
    }
  }

  /** A key between two keys with prefix `p` has that prefix. */
  lemma {:induction false} BetweenHasPrefix(p: Bytes, a: Bytes, b: Bytes, k: Bytes)
    requires LessEq(p + a, k) && LessEq(k, p + b)
    ensures HasPrefix(k, p)
  {
    if p != [] {
      LessIrreflexive(k);
      assert (p + a)[1..] == p[1..] + a && (p + b)[1..] == p[1..] + b;
      assert k != [] && k[0] == p[0];
      assert k == [p[0]] + k[1..];
      assert p + a == [p[0]] + (p[1..] + a) && p + b == [p[0]] + (p[1..] + b);
      BetweenHasPrefix(p[1..], a, b, k[1..]);
      assert k[..|p|] == [k[0]] + k[1..][..|p| - 1] == p;
    }
  }
}
