/** Shared value types used by every plugin model. */
module Base {

  /** A JavaScript value that may be `undefined`/`null` (None) or present (Some). */
  datatype Option<+T> = None | Some(value: T) {
    function GetOr(default: T): T {
      match this
      case Some(v) => v
      case None => default
    }
  }
}

/** JavaScript string operations the plugins rely on. */
module Text {

  /** `sub` occurs in `s` starting at index `i`. */
  ghost predicate OccursAt(s: string, sub: string, i: int) {
    0 <= i && i + |sub| <= |s| && s[i..i + |sub|] == sub
  }

  /** `sub` is a (possibly empty) substring of `s`. */
  ghost predicate IsSubstring(sub: string, s: string) {
    exists i :: OccursAt(s, sub, i)
  }

  predicate StartsWith(s: string, prefix: string) {
    |prefix| <= |s| && s[..|prefix|] == prefix
  }

  /** `s.includes(sub)`: scans `s` for a position where `sub` starts. */
  function Includes(s: string, sub: string): (r: bool)
    ensures r <==> IsSubstring(sub, s)
    decreases |s|
  {
    if StartsWith(s, sub) then
      assert OccursAt(s, sub, 0);
      true
    else if s == [] then
      false
    else
      var r := Includes(s[1..], sub);
      IncludesShift(s, sub);
      r
  }

  /** An occurrence in `s` either starts at 0 or is an occurrence in `s[1..]` shifted by one. */
  lemma IncludesShift(s: string, sub: string)
    requires s != [] && !StartsWith(s, sub)
    ensures IsSubstring(sub, s) <==> IsSubstring(sub, s[1..])
  {
    if IsSubstring(sub, s) {
      var i :| OccursAt(s, sub, i);
      assert i != 0;
      assert s[1..][i - 1..i - 1 + |sub|] == s[i..i + |sub|];
      assert OccursAt(s[1..], sub, i - 1);
    }
    if IsSubstring(sub, s[1..]) {
      var j :| OccursAt(s[1..], sub, j);
      assert s[j + 1..j + 1 + |sub|] == s[1..][j..j + |sub|];
      assert OccursAt(s, sub, j + 1);
    }
  }

  /** The empty string is included in every string, as with `"abc".includes("")`. */
  lemma {:induction false} EmptyIsIncluded(s: string)
    ensures Includes(s, "")
  {
    assert OccursAt(s, "", 0);
  }
}

/** The deepstream protocol values the plugins inspect. */
module Protocol {
  import opened Base

  /** A TOPIC enum member, identified by its numeric value. */
  type TopicCode = nat

  /** A protocol message; plugins look only at `topic` and `name`, the rest travels unchanged. */
  datatype Message = Message(topic: TopicCode, action: nat, name: Option<string>, data: Option<string>)

  /** The `authData.token` field a client supplies: a string, or anything else (missing, number, object). */
  datatype AuthToken = StringToken(value: string) | NonStringToken
}
