/** The text codec of the search page (scripts/search.js): query
    normalisation, the whitespace-to-`-` value encoding, and the `_`-joined
    lists that carry category, manufacturer and tag selections in the URL. */
module SearchCodec {
  import opened Seqs
  import opened Text
  import opened Delimited

  /** `normalize`: lower-case, collapse whitespace runs to one space, trim. */
  function Normalize(s: string): string {
    Trim(ReplaceRuns(Lower(s), ' '))
  }

  /** What `Normalize` produces: lower case, single-spaced, no space at either end. */
  ghost predicate IsNormal(s: string) {
    && (forall i :: 0 <= i < |s| ==> !IsUpper(s[i]))
    && SingleSpaced(s)
    && (s != [] ==> s[0] != ' ' && s[|s| - 1] != ' ')
  }

  lemma NormalizeIsNormal(s: string)
    ensures IsNormal(Normalize(s))
  {
    var lower := Lower(s);
    var collapsed := ReplaceRuns(lower, ' ');
    CollapseIsSingleSpaced(lower);
    TrimKeepsSingleSpaced(collapsed);
    TrimEnds(collapsed);
    TrimKeepsCharacters(collapsed);
    assert forall x :: x in lower ==> !IsUpper(x) by {
      forall x | x in lower ensures !IsUpper(x) {
        var i :| 0 <= i < |lower| && lower[i] == x;
      }
    }
  }

  /** A normal string is left unchanged by `Normalize`. */
  lemma NormalizeFixesNormal(s: string)
    requires IsNormal(s)
    ensures Normalize(s) == s
  {
    assert Lower(s) == s;
    ReplaceRunsOfSingleSpaced(s, ' ');
    assert ReplaceRuns(s, ' ') == s;
    TrimUnchanged(s);
  }

  lemma NormalizeIdempotent(s: string)
    ensures Normalize(Normalize(s)) == Normalize(s)
  {
    NormalizeIsNormal(s);
    NormalizeFixesNormal(Normalize(s));
  }

  /** `encode`: each whitespace run becomes one `-`. */
  function Encode(s: string): (r: string)
    ensures forall i :: 0 <= i < |r| ==> !IsSpace(r[i])
  {
    var r := ReplaceRuns(s, '-');
    assert forall i :: 0 <= i < |r| ==> r[i] in r;
    r
  }

  /** `decode`: each `-` becomes a space. */
  function Decode(s: string): (r: string)
    ensures |r| == |s| && '-' !in r
  {
    seq(|s|, i requires 0 <= i < |s| => if s[i] == '-' then ' ' else s[i])
  }

  /** A value the codec carries unchanged: non-empty, single-spaced, and free of the
      placeholder `-` and the list delimiter `_`. */
  ghost predicate CodecSafe(v: string) {
    v != [] && '-' !in v && '_' !in v && SingleSpaced(v)
  }

  /** Decoding undoes encoding for a single-spaced value without `-`. */
  lemma DecodeEncode(v: string)
    requires '-' !in v && SingleSpaced(v)
    ensures Decode(Encode(v)) == v
  {
    ReplaceRunsOfSingleSpaced(v, '-');
  }

  /** A `-` that is part of a value comes back as a space. */
  lemma DashIsNotPreserved()
    ensures Decode(Encode("Wi-Fi")) == "Wi Fi"
  {
    ReplaceRunsOfSingleSpaced("Wi-Fi", '-');
  }

  /** `(raw).split('_').filter(Boolean).map(decode)`. */
  function ParseList(raw: string): (r: seq<string>)
    ensures forall i :: 0 <= i < |r| ==> r[i] != [] && '_' !in r[i] && '-' !in r[i]
  {
    var parts := Parse(raw, '_');
    var r := seq(|parts|, i requires 0 <= i < |parts| => Decode(parts[i]));
    assert forall i, k :: 0 <= i < |parts| && 0 <= k < |parts[i]| ==> r[i][k] != '_' || parts[i][k] == '_';
    r
  }

  /** `values.map(encode).join('_')`. */
  function EncodeList(values: seq<string>): string {
    Join(seq(|values|, i requires 0 <= i < |values| => Encode(values[i])), '_')
  }

  /** Parsing recovers every list of codec-safe values, the empty list included. */
  lemma ParseEncodeList(values: seq<string>)
    requires forall i :: 0 <= i < |values| ==> CodecSafe(values[i])
    ensures ParseList(EncodeList(values)) == values
  {
    var encoded := seq(|values|, i requires 0 <= i < |values| => Encode(values[i]));
    forall i | 0 <= i < |values|
      ensures encoded[i] != [] && '_' !in encoded[i] && Decode(encoded[i]) == values[i]
    {
      ReplaceRunsOfSingleSpaced(values[i], '-');
      DecodeEncode(values[i]);
    }
    ParseJoin(encoded, '_');
  }
}
