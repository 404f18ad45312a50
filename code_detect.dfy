/** The keyword test `ChatApp.is_code` applies to every reply before displaying it. */
module CodeDetect {

  /** `k` occurs in `m` starting at index `i`. */
  predicate OccursAt(m: string, k: string, i: int) {
    0 <= i && i + |k| <= |m| && m[i..i + |k|] == k
  }

  /** Python's `k in m` on strings: a left-to-right search for `k` as a substring. */
  function Contains(m: string, k: string): (r: bool)
    ensures r <==> exists i :: OccursAt(m, k, i)
    decreases |m|
  {
    if |k| > |m| then false
    else if m[..|k|] == k then
      assert OccursAt(m, k, 0);
      true
    else
      assert !OccursAt(m, k, 0);
      ShiftOccurrences(m, k);
      Contains(m[1..], k)
  }

  /** When `k` does not start `m`, it occurs in `m` exactly when it occurs in `m[1..]`. */
  lemma ShiftOccurrences(m: string, k: string)
    requires |m| > 0 && !OccursAt(m, k, 0)
    ensures (exists i :: OccursAt(m, k, i)) <==> (exists i :: OccursAt(m[1..], k, i))
  {
    if i :| OccursAt(m, k, i) {
      assert m[1..][i - 1..i - 1 + |k|] == m[i..i + |k|];
      assert OccursAt(m[1..], k, i - 1);
    }
    if i :| OccursAt(m[1..], k, i) {
      assert m[1..][i..i + |k|] == m[i + 1..i + 1 + |k|];
      assert OccursAt(m, k, i + 1);
    }
  }

  const Keywords: seq<string> := ["def", "class", "import", "for", "if", "else", "return"]

  /** `is_code(message)`: some keyword occurs somewhere in the message, not necessarily
      as a whole word. */
  function IsCode(message: string): (r: bool)
    ensures r <==> exists i, j :: 0 <= i < |Keywords| && OccursAt(message, Keywords[i], j)
  {
    exists i :: 0 <= i < |Keywords| && Contains(message, Keywords[i])
  }

  /** A keyword inside a longer word is enough: "information" counts as code. */
  lemma KeywordInsideWord()
    ensures IsCode("information")
  {
    assert Keywords[3] == "for";
    assert OccursAt("information", "for", 2);
  }

  /** Surrounding text never turns code into non-code. */
  lemma IsCodeInContext(prefix: string, message: string, suffix: string)
    requires IsCode(message)
    ensures IsCode(prefix + message + suffix)
  {
    var i, j :| 0 <= i < |Keywords| && OccursAt(message, Keywords[i], j);
    var k := Keywords[i];
    var whole := prefix + message + suffix;
    assert whole[|prefix| + j..|prefix| + j + |k|] == message[j..j + |k|];
    assert OccursAt(whole, k, |prefix| + j);
  }

  /** The empty message, and any message shorter than every keyword, is never code. */
  lemma ShortMessageIsNotCode(message: string)
    requires |message| < 2
    ensures !IsCode(message)
  {
    forall i, j | 0 <= i < |Keywords|
      ensures !OccursAt(message, Keywords[i], j)
    {
      assert |Keywords[i]| >= 2;
    }
  }
}
