/** The JavaScript string operations the dashboard relies on:
    `toLowerCase`, `toUpperCase`, `includes` and `split(' ')[0]`.
    Case mapping is modelled for the ASCII letters only. */
module JsText {

  function LowerChar(c: char): char {
    if 'A' <= c <= 'Z' then (c as int + 32) as char else c
  }

  function UpperChar(c: char): char {
    if 'a' <= c <= 'z' then (c as int - 32) as char else c
  }

  /** `s.toLowerCase()`: same length, no upper-case letter left, every other
      character kept. */
  function ToLower(s: string): (r: string)
    ensures |r| == |s|
    ensures forall k | 0 <= k < |r| :: !('A' <= r[k] <= 'Z')
    ensures forall k | 0 <= k < |r| :: 'A' <= s[k] <= 'Z' ==> r[k] as int == s[k] as int + 32
    ensures forall k | 0 <= k < |r| :: !('A' <= s[k] <= 'Z') ==> r[k] == s[k]
  {
    seq(|s|, k requires 0 <= k < |s| => LowerChar(s[k]))
  }

  /** `s.toUpperCase()`: same length, no lower-case letter left, every other
      character kept. */
  function ToUpper(s: string): (r: string)
    ensures |r| == |s|
    ensures forall k | 0 <= k < |r| :: !('a' <= r[k] <= 'z')
    ensures forall k | 0 <= k < |r| :: 'a' <= s[k] <= 'z' ==> r[k] as int == s[k] as int - 32
    ensures forall k | 0 <= k < |r| :: !('a' <= s[k] <= 'z') ==> r[k] == s[k]
  {
    seq(|s|, k requires 0 <= k < |s| => UpperChar(s[k]))
  }

  /** The text t occurs in s starting at index i. */
  predicate OccursAt(s: string, t: string, i: int) {
    0 <= i && i + |t| <= |s| && s[i..i + |t|] == t
  }

  /** `s.includes(t)`, computed by trying each start position in turn: never
      true of a text longer than s, always true of a prefix of s. */
  function Includes(s: string, t: string): (b: bool)
    ensures b ==> |t| <= |s|
    ensures t <= s ==> b
    decreases |s|
  {
    |t| <= |s| && (s[..|t|] == t || (|s| > 0 && Includes(s[1..], t)))
  }

  /** `Includes` holds exactly when t occurs somewhere in s. */
  lemma {:induction false} IncludesIff(s: string, t: string)
    ensures Includes(s, t) <==> exists i :: OccursAt(s, t, i)
    decreases |s|
  {
    if |t| <= |s| && s[..|t|] == t {
      assert OccursAt(s, t, 0);
    } else if |t| <= |s| && |s| > 0 {
      IncludesIff(s[1..], t);
      if Includes(s[1..], t) {
        var i :| OccursAt(s[1..], t, i);
        assert s[1..][i..i + |t|] == s[i + 1..i + 1 + |t|];
        assert OccursAt(s, t, i + 1);
      } else {
        forall i | OccursAt(s, t, i) ensures i > 0 && OccursAt(s[1..], t, i - 1) {
          assert s[1..][i - 1..i - 1 + |t|] == s[i..i + |t|];
        }
      }
    }
  }

  /** `s.split(' ')[0]`: the text before the first space, or all of s when it
      has none. */
  function FirstWord(s: string): (w: string)
    ensures w <= s
    ensures ' ' !in w
    ensures w == s || s[|w|] == ' '
  {
    if s == [] || s[0] == ' ' then [] else [s[0]] + FirstWord(s[1..])
  }

  /** The three properties of `FirstWord` single out its result. */
  lemma {:induction false} FirstWordUnique(s: string, w: string)
    requires w <= s && ' ' !in w && (w == s || s[|w|] == ' ')
    ensures w == FirstWord(s)
  {
    if s != [] && s[0] != ' ' {
      assert w != [];
      assert w[0] == s[0];
      assert w[1..] <= s[1..];
      assert ' ' !in w[1..] by {
        forall c | c in w[1..] ensures c != ' ' { assert c in w; }
      }
      assert w[1..] == s[1..] || s[1..][|w[1..]|] == ' ';
      FirstWordUnique(s[1..], w[1..]);
      assert w == [w[0]] + w[1..];
    }
  }
}
