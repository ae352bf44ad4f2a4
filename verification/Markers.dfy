// Marker detection: fingerprints of markers, matched against hashed windows of a text.
module Markers {
  import opened Sorting

  // What the scripts take from Python: the case folding of a single character, and the
  // hexadecimal SHA-256 digest of a text.
  datatype Hashing = Hashing(fold: char -> string, sha: string -> string)

  // The length of a normalized marker and its digest.
  datatype Fingerprint = Fingerprint(length: nat, digest: string)

  // The configured fingerprints: of case-folded markers and of case-sensitive ones.
  datatype Config = Config(folded: set<Fingerprint>, exact: set<Fingerprint>)

  ghost predicate Injective(sha: string -> string) {
    forall a, b :: sha(a) == sha(b) ==> a == b
  }

  // ---- Normal forms --------------------------------------------------------------------

  // casefold()
  function CaseFold(h: Hashing, s: string): string {
    if s == "" then "" else CaseFold(h, s[..|s| - 1]) + h.fold(s[|s| - 1])
  }

  // ASCII letters and digits
  predicate IsTokenChar(c: char) {
    ('A' <= c <= 'Z') || ('a' <= c <= 'z') || ('0' <= c <= '9')
  }

  // The tokens of the text, joined.
  function TokenChars(s: string): string {
    if s == "" then ""
    else if IsTokenChar(s[|s| - 1]) then TokenChars(s[..|s| - 1]) + [s[|s| - 1]]
    else TokenChars(s[..|s| - 1])
  }

  function Normalize(h: Hashing, s: string, caseSensitive: bool): string {
    TokenChars(if caseSensitive then s else CaseFold(h, s))
  }

  // marker_fingerprint
  function MarkerFingerprint(h: Hashing, marker: string, caseSensitive: bool): Fingerprint {
    var normalized := Normalize(h, marker, caseSensitive);
    Fingerprint(|normalized|, h.sha(normalized))
  }

  lemma {:induction false} CaseFoldConcat(h: Hashing, a: string, b: string)
    ensures CaseFold(h, a + b) == CaseFold(h, a) + CaseFold(h, b)
  {
    if b == "" {
      assert a + b == a;
    } else {
      assert (a + b)[..|a + b| - 1] == a + b[..|b| - 1];
      CaseFoldConcat(h, a, b[..|b| - 1]);
    }
  }

  lemma {:induction false} TokenCharsConcat(a: string, b: string)
    ensures TokenChars(a + b) == TokenChars(a) + TokenChars(b)
  {
    if b == "" {
      assert a + b == a;
    } else {
      assert (a + b)[..|a + b| - 1] == a + b[..|b| - 1];
      TokenCharsConcat(a, b[..|b| - 1]);
    }
  }

  // Normal forms of concatenations are concatenations of normal forms.
  lemma {:induction false} NormalizeConcat(h: Hashing, a: string, b: string, caseSensitive: bool)
    ensures Normalize(h, a + b, caseSensitive) == Normalize(h, a, caseSensitive) + Normalize(h, b, caseSensitive)
  {
    if caseSensitive {
      TokenCharsConcat(a, b);
    } else {
      CaseFoldConcat(h, a, b);
      TokenCharsConcat(CaseFold(h, a), CaseFold(h, b));
    }
  }

  // Character by character, case folding folds, and the normal form keeps the ASCII
  // letters and digits.
  lemma {:induction false} OneCharacter(h: Hashing, c: char)
    ensures CaseFold(h, [c]) == h.fold(c)
    ensures TokenChars([c]) ==
            if 48 <= c as int <= 57 || 65 <= c as int <= 90 || 97 <= c as int <= 122 then [c] else ""
  {
    assert [c][..0] == "";
    assert CaseFold(h, "") + h.fold(c) == h.fold(c);
    assert TokenChars("") + [c] == [c];
  }

  // ---- Substrings and windows -------------------------------------------------------------

  // text[i : i + length]
  function Window(text: string, i: nat, length: nat): string
    requires i + length <= |text|
  {
    text[i..i + length]
  }

  // Python's "needle in text".
  predicate Contains(text: string, needle: string) {
    exists i :: 0 <= i <= |text| - |needle| && Window(text, i, |needle|) == needle
  }

  lemma {:induction false} WindowMoves(before: string, text: string, after: string, i: nat, length: nat)
    requires i + length <= |text|
    ensures Window(before + text + after, |before| + i, length) == Window(text, i, length)
  {
    var whole, j := before + text + after, |before| + i;
    assert whole[j..j + length] == text[i..i + length];
  }

  lemma {:induction false} ContainsGrows(before: string, text: string, after: string, needle: string)
    requires Contains(text, needle)
    ensures Contains(before + text + after, needle)
  {
    var i :| 0 <= i <= |text| - |needle| && Window(text, i, |needle|) == needle;
    WindowMoves(before, text, after, i, |needle|);
  }

  // A text contains its contiguous parts.
  lemma {:induction false} ContainsMeans(text: string, needle: string)
    ensures Contains(text, needle) <==> exists before, after :: text == before + needle + after
  {
    if i :| 0 <= i <= |text| - |needle| && Window(text, i, |needle|) == needle {
      assert text == text[..i] + needle + text[i + |needle|..];
    }
    if before, after :| text == before + needle + after {
      assert Window(text, |before|, |needle|) == needle;
    }
  }

  // Some window of that length has that digest.
  ghost predicate WindowMatches(h: Hashing, normalized: string, f: Fingerprint) {
    exists i :: 0 <= i <= |normalized| - f.length && h.sha(Window(normalized, i, f.length)) == f.digest
  }

  ghost predicate Matches(h: Hashing, value: string, f: Fingerprint, caseSensitive: bool) {
    Contains(CaseFold(h, value), f.digest) || WindowMatches(h, Normalize(h, value, caseSensitive), f)
  }

  ghost function MatchingIds(h: Hashing, value: string, fingerprints: set<Fingerprint>, caseSensitive: bool): set<string> {
    set f | f in fingerprints && Matches(h, value, f, caseSensitive) :: f.digest
  }

  // A window of that length that starts before position n has the digest.
  ghost predicate DigestBefore(h: Hashing, normalized: string, length: nat, n: int, d: string) {
    exists i :: 0 <= i < n && i + length <= |normalized| && h.sha(Window(normalized, i, length)) == d
  }

  // found holds the configured digests of the windows of that length that start before n.
  ghost predicate WindowsDone(h: Hashing, normalized: string, length: nat, n: int,
                              fingerprints: set<Fingerprint>, found: set<string>) {
    forall d :: d in found <==>
      Fingerprint(length, d) in fingerprints
      && DigestBefore(h, normalized, length, n, d)
  }

  // The inner loop: all windows of one length.
  method WindowDigests(h: Hashing, normalized: string, length: nat, fingerprints: set<Fingerprint>)
    returns (found: set<string>)
    ensures forall d :: d in found <==>
              Fingerprint(length, d) in fingerprints && WindowMatches(h, normalized, Fingerprint(length, d))
  {
    found := {};
    if |normalized| < length {
      return;
    }
    var last := |normalized| - length + 1;
    for index := 0 to last
      invariant WindowsDone(h, normalized, length, index, fingerprints, found)
    {
      var digest := h.sha(Window(normalized, index, length));
      OneMoreWindow(h, normalized, length, index, fingerprints, found);
      if Fingerprint(length, digest) in fingerprints {
        found := found + {digest};
      }
    }
    forall d
      ensures DigestBefore(h, normalized, length, last, d) <==> WindowMatches(h, normalized, Fingerprint(length, d))
    {
    }
  }

  lemma {:induction false} OneMoreWindow(h: Hashing, normalized: string, length: nat, index: nat,
                                         fingerprints: set<Fingerprint>, found: set<string>)
    requires index + length <= |normalized| && WindowsDone(h, normalized, length, index, fingerprints, found)
    ensures
      var digest := h.sha(Window(normalized, index, length));
      WindowsDone(h, normalized, length, index + 1, fingerprints,
                  if Fingerprint(length, digest) in fingerprints then found + {digest} else found)
  {
    var digest := h.sha(Window(normalized, index, length));
    forall d
      ensures DigestBefore(h, normalized, length, index + 1, d)
         <==> d == digest || DigestBefore(h, normalized, length, index, d)
    {
      if DigestBefore(h, normalized, length, index + 1, d) && d != digest {
        var i :| 0 <= i < index + 1 && i + length <= |normalized| && h.sha(Window(normalized, i, length)) == d;
        assert i != index;
      }
    }
  }

  // _matching_marker_ids
  method MatchingMarkerIdsIn(h: Hashing, value: string, fingerprints: set<Fingerprint>, caseSensitive: bool)
    returns (matches: set<string>)
    ensures matches == MatchingIds(h, value, fingerprints, caseSensitive)
  {
    var normalized := Normalize(h, value, caseSensitive);
    var folded := CaseFold(h, value);
    matches := set f | f in fingerprints && Contains(folded, f.digest) :: f.digest;
    var lengths := set f | f in fingerprints :: f.length;
    var todo := lengths;
    while todo != {}
      invariant todo <= lengths
      invariant forall d :: d in matches <==>
        exists f :: f in fingerprints && f.digest == d
               && (Contains(folded, d) || (f.length !in todo && WindowMatches(h, normalized, f)))
      decreases todo
    {
      var length :| length in todo;
      var found := WindowDigests(h, normalized, length, fingerprints);
      matches := matches + found;
      todo := todo - {length};
    }
  }

  // matching_marker_ids
  method MatchingMarkerIds(h: Hashing, value: string, config: Config) returns (ids: seq<string>)
    ensures Ascending(ids)
    ensures forall d :: d in ids <==> d in MarkerIds(h, value, config)
  {
    var matches := MatchingMarkerIdsIn(h, value, config.folded, false);
    var exact := MatchingMarkerIdsIn(h, value, config.exact, true);
    ids := SortedSet(matches + exact);
  }

  ghost function MarkerIds(h: Hashing, value: string, config: Config): set<string> {
    MatchingIds(h, value, config.folded, false) + MatchingIds(h, value, config.exact, true)
  }

  ghost predicate HasMarker(h: Hashing, value: string, config: Config) {
    MarkerIds(h, value, config) != {}
  }

  // ---- What is found ------------------------------------------------------------------------

  ghost function FingerprintsOf(h: Hashing, markers: set<string>, caseSensitive: bool): set<Fingerprint> {
    set m | m in markers :: MarkerFingerprint(h, m, caseSensitive)
  }

  // The window of a marker is found if and only if the normal form of the marker is a
  // contiguous part of the normal form of the text.
  lemma {:induction false} WindowIsSubstring(h: Hashing, value: string, marker: string, caseSensitive: bool)
    requires Injective(h.sha)
    ensures WindowMatches(h, Normalize(h, value, caseSensitive), MarkerFingerprint(h, marker, caseSensitive))
       <==> Contains(Normalize(h, value, caseSensitive), Normalize(h, marker, caseSensitive))
  {
    var text, needle := Normalize(h, value, caseSensitive), Normalize(h, marker, caseSensitive);
    if Contains(text, needle) {
      var i :| 0 <= i <= |text| - |needle| && Window(text, i, |needle|) == needle;
      assert h.sha(Window(text, i, |needle|)) == h.sha(needle);
    }
  }

  // The ids found in a text are the digests of the markers that it contains, up to
  // normalization, and the digests that it spells out.
  lemma {:induction false} MatchingIsSubstringSearch(h: Hashing, value: string, markers: set<string>, caseSensitive: bool,
                                                     id: string)
    requires Injective(h.sha)
    ensures id in MatchingIds(h, value, FingerprintsOf(h, markers, caseSensitive), caseSensitive)
       <==> exists m :: m in markers && id == h.sha(Normalize(h, m, caseSensitive))
              && (Contains(Normalize(h, value, caseSensitive), Normalize(h, m, caseSensitive))
                  || Contains(CaseFold(h, value), id))
  {
    forall m | m in markers
      ensures MarkerFingerprint(h, m, caseSensitive) in FingerprintsOf(h, markers, caseSensitive)
    {
      WindowIsSubstring(h, value, m, caseSensitive);
    }
    forall m {
      WindowIsSubstring(h, value, m, caseSensitive);
    }
  }

  // The audit as a whole. An id is found if and only if it is the digest of a case-folded
  // marker whose letters and digits are contiguous in those of the case-folded text, or of a
  // case-sensitive one for which this holds without folding, or is spelled out in the text.
  lemma {:induction false} MarkersAreFound(h: Hashing, value: string, folded: set<string>, exact: set<string>, id: string)
    requires Injective(h.sha)
    ensures
      var config := Config(FingerprintsOf(h, folded, false), FingerprintsOf(h, exact, true));
      id in MarkerIds(h, value, config) <==>
        || (exists m :: m in folded && id == h.sha(TokenChars(CaseFold(h, m)))
              && (Contains(TokenChars(CaseFold(h, value)), TokenChars(CaseFold(h, m))) || Contains(CaseFold(h, value), id)))
        || (exists m :: m in exact && id == h.sha(TokenChars(m))
              && (Contains(TokenChars(value), TokenChars(m)) || Contains(CaseFold(h, value), id)))
  {
    MatchingIsSubstringSearch(h, value, folded, false, id);
    MatchingIsSubstringSearch(h, value, exact, true, id);
  }

  // The case of a text is nothing to the case-folded markers.
  lemma {:induction false} CaseIsFolded(h: Hashing, v: string, w: string, fingerprints: set<Fingerprint>)
    requires CaseFold(h, v) == CaseFold(h, w)
    ensures MatchingIds(h, v, fingerprints, false) == MatchingIds(h, w, fingerprints, false)
  {
    assert Normalize(h, v, false) == Normalize(h, w, false);
  }

  // More fingerprints find more: the ids of a union are the union of the ids.
  lemma {:induction false} MatchingDistributes(h: Hashing, value: string, a: set<Fingerprint>, b: set<Fingerprint>,
                                               caseSensitive: bool)
    ensures MatchingIds(h, value, a + b, caseSensitive)
         == MatchingIds(h, value, a, caseSensitive) + MatchingIds(h, value, b, caseSensitive)
  {
  }

  function Union(a: Config, b: Config): Config {
    Config(a.folded + b.folded, a.exact + b.exact)
  }

  lemma {:induction false} MarkerIdsOfUnion(h: Hashing, value: string, a: Config, b: Config)
    ensures MarkerIds(h, value, Union(a, b)) == MarkerIds(h, value, a) + MarkerIds(h, value, b)
  {
    MatchingDistributes(h, value, a.folded, b.folded, false);
    MatchingDistributes(h, value, a.exact, b.exact, true);
  }

  lemma {:induction false} WindowGrows(h: Hashing, before: string, text: string, after: string, f: Fingerprint)
    requires WindowMatches(h, text, f)
    ensures WindowMatches(h, before + text + after, f)
  {
    var i :| 0 <= i <= |text| - f.length && h.sha(Window(text, i, f.length)) == f.digest;
    WindowMoves(before, text, after, i, f.length);
  }

  lemma {:induction false} MatchGrows(h: Hashing, before: string, value: string, after: string, f: Fingerprint,
                                      caseSensitive: bool)
    requires Matches(h, value, f, caseSensitive)
    ensures Matches(h, before + value + after, f, caseSensitive)
  {
    if Contains(CaseFold(h, value), f.digest) {
      CaseFoldConcat(h, before, value);
      CaseFoldConcat(h, before + value, after);
      ContainsGrows(CaseFold(h, before), CaseFold(h, value), CaseFold(h, after), f.digest);
    } else {
      NormalizeConcat(h, before, value, caseSensitive);
      NormalizeConcat(h, before + value, after, caseSensitive);
      WindowGrows(h, Normalize(h, before, caseSensitive), Normalize(h, value, caseSensitive),
                  Normalize(h, after, caseSensitive), f);
    }
  }

  // Text around a text hides none of its markers.
  lemma {:induction false} SurroundingsHideNothing(h: Hashing, before: string, value: string, after: string, config: Config)
    ensures MarkerIds(h, value, config) <= MarkerIds(h, before + value + after, config)
  {
    forall f, caseSensitive | Matches(h, value, f, caseSensitive)
      ensures Matches(h, before + value + after, f, caseSensitive)
    {
      MatchGrows(h, before, value, after, f, caseSensitive);
    }
  }

  // Nor does text without letters and digits that is inserted into a marker.
  lemma {:induction false} SeparatorsHideNothing(h: Hashing, before: string, inserted: string, after: string,
                                                 f: Fingerprint, caseSensitive: bool)
    requires Normalize(h, inserted, caseSensitive) == ""
    ensures WindowMatches(h, Normalize(h, before + inserted + after, caseSensitive), f)
       <==> WindowMatches(h, Normalize(h, before + after, caseSensitive), f)
  {
    SeparatorsVanish(h, before, inserted, after, caseSensitive);
  }

  lemma {:induction false} SeparatorsVanish(h: Hashing, before: string, inserted: string, after: string, caseSensitive: bool)
    requires Normalize(h, inserted, caseSensitive) == ""
    ensures Normalize(h, before + inserted + after, caseSensitive) == Normalize(h, before + after, caseSensitive)
  {
    var a, b := Normalize(h, before, caseSensitive), Normalize(h, after, caseSensitive);
    assert Normalize(h, before + inserted, caseSensitive) == a by {
      NormalizeConcat(h, before, inserted, caseSensitive);
      assert a + "" == a;
    }
    NormalizeConcat(h, before + inserted, after, caseSensitive);
    NormalizeConcat(h, before, after, caseSensitive);
  }
}
