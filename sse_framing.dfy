/**
 * The event framing both write callbacks of src/dp_stream.c share: buffer
 * growth, the search for the earliest event separator, and line splitting.
 * The buffer is a C string, so every search stops at the first NUL.
 */
module SseFraming {
  import opened Wrappers
  import opened Text

  const LF := "\n\n"
  const CRLF := "\r\n\r\n"

  /** Capacity of a freshly created stream processor. */
  const InitialCapacity: nat := 8192

  /**
   * The capacity after appending to a buffer that needs `needed` bytes: kept
   * when large enough, else the larger of `needed` and twice the old one,
   * and never below 1024.
   */
  function NewCapacity(capacity: nat, needed: nat): (r: nat)
    ensures r >= needed && r >= capacity
    ensures capacity >= needed ==> r == capacity
    ensures capacity < needed ==> r >= 1024 && r >= 2 * capacity
    ensures capacity < needed && needed > 1024 && needed > 2 * capacity ==> r == needed
    ensures capacity < needed ==> r == needed || r == 2 * capacity || r == 1024
  {
    if capacity >= needed then capacity
    else
      var grown := if needed > capacity * 2 then needed else capacity * 2;
      if grown < 1024 then 1024 else grown
  }

  /** No NUL, CR or LF: text that cannot end a line or an event, or cut a C string. */
  predicate Plain(s: string) {
    forall i :: 0 <= i < |s| ==> s[i] != '\n' && s[i] != '\r' && s[i] != '\0'
  }

  predicate NulFree(s: string) {
    forall i :: 0 <= i < |s| ==> s[i] != '\0'
  }

  /**
   * strstr(s, pat) for a pattern without NUL: the first occurrence of `pat`
   * that lies before the first NUL of `s`.
   */
  function Find(s: string, pat: string): (r: Option<nat>)
    requires |pat| > 0 && NulFree(pat)
    ensures r.Some? ==> OccursAt(s, pat, r.value) && NulFree(s[..r.value + |pat|])
    ensures r.Some? ==> forall j :: 0 <= j < r.value ==> !OccursAt(s, pat, j)
    ensures r.None? ==> forall j :: OccursAt(s, pat, j) ==> !NulFree(s[..j])
    decreases |s|
  {
    if |s| < |pat| || s[0] == '\0' then None
    else if s[..|pat|] == pat then Some(0)
    else
      var rest := Find(s[1..], pat);
      OccursShift(s, pat);
      match rest
      case None =>
        NulBeforeShift(s, pat);
        None
      case Some(k) =>
        FoundShift(s, pat, k);
        Some(k + 1)
  }

  /** An occurrence past the first character is one in the tail, one place earlier. */
  lemma OccursShift(s: string, pat: string)
    requires |s| > 0
    ensures forall j :: 1 <= j && OccursAt(s, pat, j) ==> OccursAt(s[1..], pat, j - 1)
  {
    forall j | 1 <= j && OccursAt(s, pat, j) ensures OccursAt(s[1..], pat, j - 1) {
      assert s[1..][j - 1..j - 1 + |pat|] == s[j..j + |pat|];
    }
  }

  /** When every occurrence in the tail follows a NUL, so does every one past the first character. */
  lemma NulBeforeShift(s: string, pat: string)
    requires |s| > 0
    requires forall j :: OccursAt(s[1..], pat, j) ==> !NulFree(s[1..][..j])
    requires forall j :: 1 <= j && OccursAt(s, pat, j) ==> OccursAt(s[1..], pat, j - 1)
    ensures forall j :: 1 <= j && OccursAt(s, pat, j) ==> !NulFree(s[..j])
  {
    forall j | 1 <= j && OccursAt(s, pat, j) ensures !NulFree(s[..j]) {
      assert !NulFree(s[1..][..j - 1]);
      assert s[1..][..j - 1] == s[1..j];
    }
  }

  /** An occurrence found in the tail, behind no NUL, is one in `s` one place later. */
  lemma FoundShift(s: string, pat: string, k: nat)
    requires |s| > 0 && s[0] != '\0'
    requires OccursAt(s[1..], pat, k) && NulFree(s[1..][..k + |pat|])
    ensures OccursAt(s, pat, k + 1) && NulFree(s[..k + 1 + |pat|])
  {
    assert s[..k + 1 + |pat|] == [s[0]] + s[1..][..k + |pat|];
    assert s[k + 1..k + 1 + |pat|] == s[1..][k..k + |pat|];
  }

  /** The one place Find can answer, when the occurrence and what precedes it are known. */
  lemma FindAt(s: string, pat: string, i: nat)
    requires |pat| > 0 && NulFree(pat)
    requires OccursAt(s, pat, i) && NulFree(s[..i])
    requires forall j :: 0 <= j < i ==> !OccursAt(s, pat, j)
    ensures Find(s, pat) == Some(i)
  {
  }

  /** Find answers None when no occurrence exists at all. */
  lemma FindNone(s: string, pat: string)
    requires |pat| > 0 && NulFree(pat)
    requires forall j :: 0 <= j <= |s| - |pat| ==> !OccursAt(s, pat, j)
    ensures Find(s, pat).None?
  {
  }

  /**
   * The earliest complete event in `s`: its length and the length of the
   * separator that ends it (2 for a blank LF line, 4 for a blank CRLF line).
   */
  function NextEvent(s: string): (r: Option<(nat, nat)>)
    ensures r.Some? ==> (r.value.1 == 2 || r.value.1 == 4) && r.value.0 + r.value.1 <= |s|
  {
    var lf := Find(s, LF);
    var crlf := Find(s, CRLF);
    if lf.Some? && (crlf.None? || lf.value < crlf.value) then Some((lf.value, 2))
    else if crlf.Some? then Some((crlf.value, 4))
    else None
  }

  /**
   * The event found is the earliest one: it ends at the first LF LF or
   * CR LF CR LF of the NUL-free prefix, whichever comes first, and there is
   * none only when neither separator is found.
   */
  lemma NextEventIsEarliest(s: string)
    ensures var r := NextEvent(s);
      && (r.Some? ==> (r.value.1 == 2 && OccursAt(s, LF, r.value.0)) || (r.value.1 == 4 && OccursAt(s, CRLF, r.value.0)))
      && (r.Some? ==> NulFree(s[..r.value.0]))
      && (r.Some? ==> forall j :: 0 <= j < r.value.0 ==> !OccursAt(s, LF, j) && !OccursAt(s, CRLF, j))
      && (r.None? <==> Find(s, LF).None? && Find(s, CRLF).None?)
  {
    var lf := Find(s, LF);
    var crlf := Find(s, CRLF);
    if lf.Some? && (crlf.None? || lf.value < crlf.value) {
      EarlierThanFound(s, lf.value, 2, CRLF, crlf);
    } else if crlf.Some? {
      assert s[crlf.value..crlf.value + 4][0] == s[crlf.value] == '\r';
      assert lf.Some? ==> s[lf.value..lf.value + 2][0] == s[lf.value] == '\n';
      EarlierThanFound(s, crlf.value, 4, LF, lf);
    }
  }

  lemma EarlierThanFound(s: string, i: nat, sepLen: nat, otherSep: string, other: Option<nat>)
    requires (sepLen == 2 && otherSep == CRLF) || (sepLen == 4 && otherSep == LF)
    requires i + sepLen <= |s| && NulFree(s[..i + sepLen])
    requires other == Find(s, otherSep)
    requires other.Some? ==> i < other.value
    ensures NulFree(s[..i])
    ensures forall j :: 0 <= j < i ==> !OccursAt(s, otherSep, j)
  {
    assert s[..i] == s[..i + sepLen][..i];
    forall j | 0 <= j < i ensures NulFree(s[..j]) {
      assert s[..j] == s[..i][..j];
    }
  }

  /** Drop one trailing CR, as the line loops do to a line that ended in LF. */
  function StripCR(line: string): (r: string)
    ensures r == line || (line == r + ['\r'])
    ensures |line| > 0 && line[|line| - 1] == '\r' ==> |r| == |line| - 1
  {
    if |line| > 0 && line[|line| - 1] == '\r' then line[..|line| - 1] else line
  }

  /** The text of a blank-line-terminated event with one event line and one data line. */
  function EventText(name: string, data: string): string {
    "event: " + name + "\ndata: " + data
  }

  /**
   * A frame "event: N\ndata: D\n\n" whose name and data are plain is cut
   * exactly before its final blank line.
   */
  lemma {:induction false} FrameIsOneEvent(name: string, data: string)
    requires Plain(name) && Plain(data)
    ensures NextEvent(EventText(name, data) + LF) == Some((|EventText(name, data)|, 2))
  {
    var t := EventText(name, data);
    var s := t + LF;
    var n := |name|;
    var L := |s|;
    assert |t| == 14 + n + |data|;
    assert forall k :: 0 <= k < 7 ==> s[k] == "event: "[k];
    assert forall k :: 7 <= k < 7 + n ==> s[k] == name[k - 7];
    assert s[7 + n] == '\n';
    assert forall k :: 8 + n <= k < 14 + n ==> s[k] == "data: "[k - 8 - n];
    assert forall k :: 14 + n <= k < |t| ==> s[k] == data[k - 14 - n];
    assert s[|t|] == '\n' && s[|t| + 1] == '\n';
    assert forall k :: 0 <= k < |t| ==> s[k] != '\0' && s[k] != '\r' && (s[k] == '\n' ==> k == 7 + n);
    assert s[8 + n] == 'd';
    forall j | 0 <= j < |t| ensures !OccursAt(s, LF, j) {
      if j == 7 + n {
        assert s[j..j + 2][1] == 'd';
      } else {
        assert s[j..j + 2][0] != '\n';
      }
    }
    assert OccursAt(s, LF, |t|) by { assert s[|t|..|t| + 2] == LF; }
    assert NulFree(s[..|t|]);
    FindAt(s, LF, |t|);
    forall j | 0 <= j <= L - 4 ensures !OccursAt(s, CRLF, j) {
      assert s[j..j + 4][0] == s[j] != '\r';
    }
    FindNone(s, CRLF);
  }
}
