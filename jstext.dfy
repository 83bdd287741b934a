/**
 * The two JavaScript string built-ins the weather/quote code relies on,
 * `toLowerCase` and `includes`, and the shape both of its weather
 * classifiers share: a chain of `if (w.includes(k1) || w.includes(k2))`
 * tests in which the first test that passes decides the answer.
 */
module JsText {

  import opened Wrappers

  // ---------------------------------------------------------------------
  // Truthiness of an optional string
  // ---------------------------------------------------------------------

  /** A string-or-null is truthy when it is present and not empty. */
  predicate Truthy(x: Option<string>) {
    x.Some? && x.value != ""
  }

  /** `x || fallback` for a string-or-null `x`. */
  function Or(x: Option<string>, fallback: string): (r: string)
    ensures Truthy(x) ==> r == x.value
    ensures !Truthy(x) ==> r == fallback
  {
    if Truthy(x) then x.value else fallback
  }

  // ---------------------------------------------------------------------
  // toLowerCase
  // ---------------------------------------------------------------------

  /** The characters this model lower-cases: the ASCII capitals. */
  predicate IsUpper(c: char) {
    'A' <= c <= 'Z'
  }

  function LowerChar(c: char): (r: char)
    ensures !IsUpper(r)
    ensures IsUpper(c) ==> r as int == c as int + 32
    ensures !IsUpper(c) ==> r == c
  {
    if IsUpper(c) then (c as int + 32) as char else c
  }

  /** `s.toLowerCase()`, restricted to ASCII letters. */
  function ToLower(s: string): (r: string)
    ensures |r| == |s|
    ensures forall i :: 0 <= i < |s| ==> r[i] == LowerChar(s[i])
  {
    if s == [] then [] else [LowerChar(s[0])] + ToLower(s[1..])
  }

  /** A string with no ASCII capital is its own lower-case form. */
  lemma ToLowerOfLower(s: string)
    requires forall i :: 0 <= i < |s| ==> !IsUpper(s[i])
    ensures ToLower(s) == s
  {
  }

  /** Lower-casing twice is lower-casing once. */
  lemma ToLowerIdempotent(s: string)
    ensures ToLower(ToLower(s)) == ToLower(s)
  {
    ToLowerOfLower(ToLower(s));
  }

  // ---------------------------------------------------------------------
  // includes
  // ---------------------------------------------------------------------

  /** `sub` occurs in `s` starting at position `i`. */
  predicate OccursAt(s: string, sub: string, i: int) {
    0 <= i && i + |sub| <= |s| && s[i..i + |sub|] == sub
  }

  /** `s.includes(sub)`: `sub` occurs in `s` at some position (the empty string occurs everywhere). */
  predicate Includes(s: string, sub: string) {
    exists i | 0 <= i <= |s| - |sub| :: OccursAt(s, sub, i)
  }

  /** The occurrence at position `i` is found by `Includes`. */
  lemma IncludesAt(s: string, sub: string, i: int)
    requires OccursAt(s, sub, i)
    ensures Includes(s, sub)
  {
  }

  /** Every string includes itself. */
  lemma IncludesSelf(s: string)
    ensures Includes(s, s)
  {
    assert OccursAt(s, s, 0);
  }

  /** Every character of an included string is a character of the including one. */
  lemma IncludesChars(s: string, sub: string, k: int)
    requires Includes(s, sub) && 0 <= k < |sub|
    ensures sub[k] in s
  {
    var i :| OccursAt(s, sub, i);
    assert OccursAt(s, sub, i);
    assert s[i + k] == sub[k];
  }

  /** A string missing one of the characters of `sub` does not include `sub`. */
  lemma MissingCharExcludes(s: string, sub: string, k: int)
    requires 0 <= k < |sub| && sub[k] !in s
    ensures !Includes(s, sub)
  {
    if Includes(s, sub) {
      IncludesChars(s, sub, k);
    }
  }

  /** Inclusion is transitive. */
  lemma IncludesTransitive(a: string, b: string, c: string)
    requires Includes(a, b) && Includes(b, c)
    ensures Includes(a, c)
  {
    var i :| OccursAt(a, b, i);
    var j :| OccursAt(b, c, j);
    assert OccursAt(a, b, i) && OccursAt(b, c, j);
    var inA, inB := a[i + j..i + j + |c|], b[j..j + |c|];
    forall k | 0 <= k < |c| ensures inA[k] == inB[k] {
      assert a[i..i + |b|][j + k] == b[j + k];
    }
    assert inA == inB;
    IncludesAt(a, c, i + j);
  }

  /** The middle part of a concatenation is included in it. */
  lemma IncludesMiddle(a: string, b: string, c: string)
    ensures Includes(a + b + c, b)
  {
    assert (a + b + c)[|a|..|a| + |b|] == b;
    IncludesAt(a + b + c, b, |a|);
  }

  // ---------------------------------------------------------------------
  // First-match rule chains
  // ---------------------------------------------------------------------

  /** One `if` of a classifier: if `w` includes any of `keywords`, answer `result`. */
  datatype Rule<T> = Rule(keywords: seq<string>, result: T)

  predicate Matches<T>(w: string, rule: Rule<T>) {
    exists k :: k in rule.keywords && Includes(w, k)
  }

  /** The answer of the first rule that matches `w`, or `otherwise` when none does. */
  function FirstMatch<T>(w: string, rules: seq<Rule<T>>, otherwise: T): T
  {
    if rules == [] then otherwise
    else if Matches(w, rules[0]) then rules[0].result
    else FirstMatch(w, rules[1..], otherwise)
  }

  /** Rule `i` matches `w` and no earlier rule does. */
  ghost predicate Wins<T>(w: string, rules: seq<Rule<T>>, i: int) {
    0 <= i < |rules| && Matches(w, rules[i]) &&
    forall j :: 0 <= j < i ==> !Matches(w, rules[j])
  }

  ghost predicate NoneMatch<T>(w: string, rules: seq<Rule<T>>) {
    forall j :: 0 <= j < |rules| ==> !Matches(w, rules[j])
  }

  /** The first matching rule decides, whatever later rules would say. */
  lemma {:induction false} FirstMatchWins<T>(w: string, rules: seq<Rule<T>>, otherwise: T, i: int)
    requires Wins(w, rules, i)
    ensures FirstMatch(w, rules, otherwise) == rules[i].result
  {
    if i > 0 {
      assert !Matches(w, rules[0]);
      assert Wins(w, rules[1..], i - 1) by {
        forall j | 0 <= j < i - 1 ensures !Matches(w, rules[1..][j]) {
          assert rules[1..][j] == rules[j + 1];
        }
      }
      FirstMatchWins(w, rules[1..], otherwise, i - 1);
    }
  }

  /** When no rule matches, the answer is the default. */
  lemma {:induction false} FirstMatchNone<T>(w: string, rules: seq<Rule<T>>, otherwise: T)
    requires NoneMatch(w, rules)
    ensures FirstMatch(w, rules, otherwise) == otherwise
  {
    if rules != [] {
      assert !Matches(w, rules[0]);
      assert NoneMatch(w, rules[1..]) by {
        forall j | 0 <= j < |rules| - 1 ensures !Matches(w, rules[1..][j]) {
          assert rules[1..][j] == rules[j + 1];
        }
      }
      FirstMatchNone(w, rules[1..], otherwise);
    }
  }

  /** When some rule matches, one of them is the first to match. */
  lemma {:induction false} WinnerExists<T>(w: string, rules: seq<Rule<T>>)
    requires !NoneMatch(w, rules)
    ensures exists i :: Wins(w, rules, i)
  {
    if Matches(w, rules[0]) {
      assert Wins(w, rules, 0);
    } else {
      assert !NoneMatch(w, rules[1..]) by {
        var j :| 0 <= j < |rules| && Matches(w, rules[j]);
        assert rules[1..][j - 1] == rules[j];
      }
      WinnerExists(w, rules[1..]);
      var i :| Wins(w, rules[1..], i);
      assert Wins(w, rules, i + 1) by {
        forall j | 0 <= j < i + 1 ensures !Matches(w, rules[j]) {
          if j > 0 { assert rules[j] == rules[1..][j - 1]; }
        }
      }
    }
  }
}
