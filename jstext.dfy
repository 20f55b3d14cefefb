/** JavaScript value semantics the handler relies on: optional (possibly
    `undefined`) values, truthiness of strings and flags, and
    `String.prototype.includes`. */
module JsText {

  /** A value that may be `undefined`. */
  datatype Option<+T> = None | Some(value: T) {
    function GetOr(default: T): T {
      match this
      case Some(v) => v
      case None => default
    }
  }

  /** `if (s)` on an optional string: present and not the empty string. */
  predicate TruthyString(s: Option<string>) {
    s.Some? && s.value != ""
  }

  /** `if (b)` on an optional boolean: present and `true`. */
  predicate TruthyFlag(b: Option<bool>) {
    b == Some(true)
  }

  /** `t` occurs in `s` starting at index `i`. */
  ghost predicate OccursAt(s: string, t: string, i: int) {
    0 <= i && i + |t| <= |s| && s[i..i + |t|] == t
  }

  lemma ShiftOccurrence(s: string, t: string, i: int)
    requires |s| > 0 && 0 <= i
    ensures OccursAt(s[1..], t, i) <==> OccursAt(s, t, i + 1)
  {
    if 0 <= i && i + |t| <= |s| - 1 {
      assert s[1..][i..i + |t|] == s[i + 1..i + 1 + |t|];
    }
  }

  /** `s.includes(t)`: true iff `t` occurs somewhere in `s` (the empty
      string occurs everywhere). */
  function Includes(s: string, t: string): (r: bool)
    ensures r <==> exists i :: OccursAt(s, t, i)
    decreases |s|
  {
    if |s| < |t| then
      false
    else if s[..|t|] == t then
      assert OccursAt(s, t, 0);
      true
    else
      var rest := Includes(s[1..], t);
      assert rest ==> exists i :: OccursAt(s, t, i) by {
        if rest {
          var i :| OccursAt(s[1..], t, i);
          ShiftOccurrence(s, t, i);
        }
      }
      assert (exists i :: OccursAt(s, t, i)) ==> rest by {
        if exists i :: OccursAt(s, t, i) {
          var i :| OccursAt(s, t, i);
          assert i != 0;
          ShiftOccurrence(s, t, i - 1);
        }
      }
      rest
  }

  /** An occurrence inside `u` is still an occurrence once text is put
      before and after `u`. */
  lemma {:induction false} IncludesInfix(a: string, u: string, b: string, t: string)
    requires Includes(u, t)
    ensures Includes(a + u + b, t)
  {
    var i :| OccursAt(u, t, i);
    var s := a + u + b;
    assert s[|a| + i..|a| + i + |t|] == u[i..i + |t|];
    assert OccursAt(s, t, |a| + i);
  }
}
