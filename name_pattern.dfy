/**
  The validator on the `name` attribute: validation.StringMatch with the
  regular expression `[.\-_/#A-Za-z0-9]+`. Go's MatchString reports
  whether the pattern matches ANY substring of the value, since the
  pattern has no `^` or `$` anchor.
*/
module NamePattern {

  /** The character class `[.\-_/#A-Za-z0-9]`. */
  predicate AllowedChar(c: char) {
    c == '.' || c == '-' || c == '_' || c == '/' || c == '#' ||
    ('A' <= c <= 'Z') || ('a' <= c <= 'z') || ('0' <= c <= '9')
  }

  /** `[C]+` matches s[i..j]: a non-empty run of allowed characters. */
  ghost predicate RunAt(s: string, i: int, j: int) {
    0 <= i < j <= |s| && forall k :: i <= k < j ==> AllowedChar(s[k])
  }

  /** Regular-expression semantics of the unanchored pattern: some substring matches. */
  ghost predicate PatternMatches(s: string) {
    exists i, j :: RunAt(s, i, j)
  }

  /** Regular-expression semantics of the anchored pattern `^[C]+$`. */
  ghost predicate PatternMatchesWhole(s: string) {
    RunAt(s, 0, |s|)
  }

  /** The validator as written: accepts a name holding at least one allowed character. */
  function NameAccepted(name: string): (ok: bool)
    ensures ok <==> exists i :: 0 <= i < |name| && AllowedChar(name[i])
  {
    if |name| == 0 then false
    else if AllowedChar(name[0]) then true
    else
      var rest := NameAccepted(name[1..]);
      assert forall i :: 0 < i < |name| ==> name[i] == name[1..][i - 1];
      assert rest ==> exists i :: 0 < i < |name| && AllowedChar(name[i]) by {
        if rest {
          var i :| 0 <= i < |name[1..]| && AllowedChar(name[1..][i]);
          assert AllowedChar(name[i + 1]);
        }
      }
      rest
  }

  /** The scan agrees with the regular-expression semantics. */
  lemma NameAcceptedIffPatternMatches(name: string)
    ensures NameAccepted(name) <==> PatternMatches(name)
  {
    if NameAccepted(name) {
      var i :| 0 <= i < |name| && AllowedChar(name[i]);
      assert RunAt(name, i, i + 1);
    }
    if PatternMatches(name) {
      var i, j :| RunAt(name, i, j);
      assert AllowedChar(name[i]);
    }
  }

  /** The unanchored pattern lets through names the service's naming rule does not allow. */
  lemma AsWrittenAcceptsSpace()
    ensures NameAccepted("my cluster")
    ensures !PatternMatchesWhole("my cluster")
  {
    assert AllowedChar("my cluster"[0]);
    assert !AllowedChar("my cluster"[2]);
  }

  /** Names with no allowed character are the only ones refused. */
  lemma AsWrittenRejects()
    ensures !NameAccepted("") && !NameAccepted(" ") && !NameAccepted("@@")
  {
  }

  /** The evidently intended validator: `^[.\-_/#A-Za-z0-9]+$`. */
  function NameAcceptedAnchored(name: string): (ok: bool)
    ensures ok <==> |name| > 0 && forall i :: 0 <= i < |name| ==> AllowedChar(name[i])
  {
    if |name| == 0 then false
    else if |name| == 1 then AllowedChar(name[0])
    else
      var rest := NameAcceptedAnchored(name[1..]);
      assert forall i :: 0 < i < |name| ==> name[i] == name[1..][i - 1];
      AllowedChar(name[0]) && rest
  }

  /** The corrected validator agrees with the anchored pattern and refuses names with a space. */
  lemma NameAcceptedAnchoredIffWholeMatch(name: string)
    ensures NameAcceptedAnchored(name) <==> PatternMatchesWhole(name)
    ensures NameAcceptedAnchored(name) ==> NameAccepted(name)
  {
    if NameAcceptedAnchored(name) {
      assert AllowedChar(name[0]);
    }
  }

  lemma AnchoredRejectsSpace()
    ensures !NameAcceptedAnchored("my cluster") && NameAcceptedAnchored("my-cluster_01")
  {
    assert !AllowedChar("my cluster"[2]);
  }
}
