/**
 * Python's ordering of `str` values (code point by code point, a proper prefix
 * first) and the `min`/`max` builtins over the keys of a dictionary, as used
 * for the pitch range line of `create_professional_doc` (Sanne/main.py).
 */
module PyStrings {

  /** `a <= b` on Python strings. */
  predicate LexLe(a: string, b: string) {
    a == [] || (b != [] && (a[0] < b[0] || (a[0] == b[0] && LexLe(a[1..], b[1..]))))
  }

  lemma {:induction false} LexLeReflexive(a: string)
    ensures LexLe(a, a)
  {
    if a != [] {
      LexLeReflexive(a[1..]);
    }
  }

  lemma {:induction false} LexLeTotal(a: string, b: string)
    ensures LexLe(a, b) || LexLe(b, a)
  {
    if a != [] && b != [] && a[0] == b[0] {
      LexLeTotal(a[1..], b[1..]);
    }
  }

  lemma {:induction false} LexLeTransitive(a: string, b: string, c: string)
    requires LexLe(a, b) && LexLe(b, c)
    ensures LexLe(a, c)
  {
    if a != [] && b != [] && c != [] && a[0] == b[0] && b[0] == c[0] {
      LexLeTransitive(a[1..], b[1..], c[1..]);
    }
  }

  lemma {:induction false} LexLeAntisymmetric(a: string, b: string)
    requires LexLe(a, b) && LexLe(b, a)
    ensures a == b
  {
    if a != [] && b != [] {
      LexLeAntisymmetric(a[1..], b[1..]);
      assert a == [a[0]] + a[1..] && b == [b[0]] + b[1..];
    }
  }

  /** `min(keys)`: the least key. An empty key list raises `ValueError`, which the caller models. */
  function Min(keys: seq<string>): (m: string)
    requires |keys| > 0
    ensures m in keys
    ensures forall k :: k in keys ==> LexLe(m, k)
  {
    if |keys| == 1 then LexLeReflexive(keys[0]); keys[0]
    else
      var rest := Min(keys[1..]);
      assert forall k :: k in keys ==> k == keys[0] || k in keys[1..];
      if LexLe(keys[0], rest) then
        assert forall k :: k in keys[1..] ==> LexLe(keys[0], k) by {
          forall k | k in keys[1..] ensures LexLe(keys[0], k) { LexLeTransitive(keys[0], rest, k); }
        }
        LexLeReflexive(keys[0]);
        keys[0]
      else
        LexLeTotal(keys[0], rest);
        rest
  }

  /** `max(keys)`: the greatest key. */
  function Max(keys: seq<string>): (m: string)
    requires |keys| > 0
    ensures m in keys
    ensures forall k :: k in keys ==> LexLe(k, m)
  {
    if |keys| == 1 then LexLeReflexive(keys[0]); keys[0]
    else
      var rest := Max(keys[1..]);
      assert forall k :: k in keys ==> k == keys[0] || k in keys[1..];
      if LexLe(rest, keys[0]) then
        assert forall k :: k in keys[1..] ==> LexLe(k, keys[0]) by {
          forall k | k in keys[1..] ensures LexLe(k, keys[0]) { LexLeTransitive(k, rest, keys[0]); }
        }
        LexLeReflexive(keys[0]);
        keys[0]
      else
        LexLeTotal(keys[0], rest);
        rest
  }

  /** Python compares names, not pitches: "A" sorts before "C", and a sharp after its natural. */
  lemma LexExamples()
    ensures LexLe("A", "C") && !LexLe("C", "A")
    ensures LexLe("C", "C#") && !LexLe("C#", "C")
    ensures Min(["C", "A", "G"]) == "A" && Max(["C", "A", "G"]) == "G"
  {
    assert !LexLe("C#", "C") by { assert "C#"[1..] == "#"; assert "C"[1..] == ""; }
    var ks := ["C", "A", "G"];
    assert ks[1..] == ["A", "G"] && ks[1..][1..] == ["G"];
    assert LexLe("A", "G") && !LexLe("G", "A") && !LexLe("C", "A");
    assert LexLe("C", "G");
  }
}
