/** Session ids attached to every `POST /mcp` reply. */
module Session {
  import opened Wrappers

  const SessionPrefix := "session_"

  /** The characters `Number.prototype.toString(36)` writes as digits. */
  predicate IsBase36Digit(c: char) {
    '0' <= c <= '9' || 'a' <= c <= 'z'
  }

  /** The texts `Math.random().toString(36)` can produce: the value lies in
      [0, 1), so it is `"0"` or `"0."` followed by base-36 digits. */
  predicate IsRandomBase36Text(t: string) {
    t == "0" || (|t| >= 3 && t[0] == '0' && t[1] == '.' && forall i :: 2 <= i < |t| ==> IsBase36Digit(t[i]))
  }

  function Min(a: nat, b: nat): nat {
    if a <= b then a else b
  }

  /** `s.substr(start, length)` for non-negative arguments: at most `length`
      characters from `start`, fewer when the string ends first. */
  function Substr(s: string, start: nat, length: nat): (r: string)
    ensures start >= |s| ==> r == ""
    ensures start < |s| ==> |r| == Min(length, |s| - start)
    ensures forall i :: 0 <= i < |r| ==> start + i < |s| && r[i] == s[start + i]
  {
    if start >= |s| then "" else s[start..start + Min(length, |s| - start)]
  }

  /** `'session_' + Math.random().toString(36).substr(2, 9)`, the random text
      being a parameter. */
  function GenerateSessionId(randomText: string): (id: string)
    ensures |SessionPrefix| <= |id| <= |SessionPrefix| + 9
    ensures id[..|SessionPrefix|] == SessionPrefix
    ensures IsRandomBase36Text(randomText) ==>
      forall i :: |SessionPrefix| <= i < |id| ==> IsBase36Digit(id[i])
  {
    SessionPrefix + Substr(randomText, 2, 9)
  }

  /** `req.headers['mcp-session-id'] || this.generateSessionId()`: a non-empty
      header is reused, otherwise an id is generated; the result is never empty,
      so the reply's `Mcp-Session-Id` header is always set. */
  function ResolveSessionId(header: Option<string>, randomText: string): (id: string)
    ensures id != ""
    ensures header.Some? && header.value != "" ==> id == header.value
    ensures header.None? || header.value == "" ==>
      |SessionPrefix| <= |id| <= |SessionPrefix| + 9 && id[..|SessionPrefix|] == SessionPrefix
  {
    if header.Some? && header.value != "" then header.value else GenerateSessionId(randomText)
  }

  /** How much of the random text a generated id keeps: up to nine
      characters after the leading `"0."`, none when the draw was exactly 0. */
  lemma GeneratedSuffixLength(randomText: string)
    requires IsRandomBase36Text(randomText)
    ensures randomText == "0" ==> GenerateSessionId(randomText) == SessionPrefix
    ensures randomText != "0" ==>
      |GenerateSessionId(randomText)| == |SessionPrefix| + Min(9, |randomText| - 2)
  {
  }
}
