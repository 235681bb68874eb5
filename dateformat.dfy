/** `formatDate`: how a `Date` parameter is written for the database when no
    custom formatter is configured. A date is represented here by the string
    `toISOString()` gives for it; the function replaces every `T` and `Z` of
    that string by a space and trims the result. */
module DateFormat {
  import opened JsText

  predicate IsTZ(c: char) { c == 'T' || c == 'Z' }

  /** `s.replace(/[TZ]/g, ' ')`. */
  function ReplaceTZ(s: string): (r: string)
    ensures |r| == |s|
    ensures forall i :: 0 <= i < |s| ==> r[i] == if IsTZ(s[i]) then ' ' else s[i]
  {
    if s == [] then [] else [if IsTZ(s[0]) then ' ' else s[0]] + ReplaceTZ(s[1..])
  }

  /** `formatDate(date)` for the date whose ISO string is `iso`. */
  function FormatDate(iso: string): (r: string)
    ensures Tight(r)
    ensures |r| <= |iso|
  {
    Trim(ReplaceTZ(iso))
  }

  predicate NoTZ(s: string) {
    forall i :: 0 <= i < |s| ==> !IsTZ(s[i])
  }

  lemma NoTZSlice(s: string, lo: int, hi: int)
    requires NoTZ(s) && 0 <= lo <= hi <= |s|
    ensures NoTZ(s[lo..hi])
  {
    forall i | 0 <= i < hi - lo ensures !IsTZ(s[lo..hi][i]) {
      assert s[lo..hi][i] == s[lo + i];
    }
  }

  /** No `T` or `Z` survives formatting. */
  lemma FormatDateHasNoTZ(iso: string)
    ensures NoTZ(FormatDate(iso))
  {
    var blanked := ReplaceTZ(iso);
    assert NoTZ(blanked);
    var started := TrimStart(blanked);
    assert started == blanked[|blanked| - |started|..|blanked|];
    NoTZSlice(blanked, |blanked| - |started|, |blanked|);
    var ended := TrimEnd(started);
    assert ended == started[0..|ended|];
    NoTZSlice(started, 0, |ended|);
    assert FormatDate(iso) == ended;
  }

  /** `s` has the shape of `pattern`, where `#` stands for any decimal digit
      and every other character for itself. */
  predicate Matches(s: string, pattern: string) {
    |s| == |pattern| &&
    forall i :: 0 <= i < |s| ==> if pattern[i] == '#' then '0' <= s[i] <= '9' else s[i] == pattern[i]
  }

  /** The date part of `toISOString()`: `YYYY-MM-DD`, or a signed six-digit
      year for years outside 0 to 9999. */
  predicate IsIsoDate(d: string) {
    || Matches(d, "####-##-##")
    || (|d| == 13 && (d[0] == '+' || d[0] == '-') && Matches(d[1..], "######-##-##"))
  }

  /** The time part of `toISOString()`: `HH:mm:ss.sss`. */
  predicate IsIsoTime(t: string) {
    Matches(t, "##:##:##.###")
  }

  /** A string of the shape above contains no `T`, `Z` or white space, and
      ends on a digit. */
  lemma PlainText(s: string, pattern: string)
    requires Matches(s, pattern)
    requires forall i :: 0 <= i < |pattern| ==> pattern[i] in "#-:.+"
    requires pattern != [] && pattern[|pattern| - 1] == '#'
    ensures forall i :: 0 <= i < |s| ==> !IsTZ(s[i]) && !IsJsSpace(s[i])
    ensures '0' <= s[|s| - 1] <= '9'
  {
    forall i | 0 <= i < |s| ensures !IsTZ(s[i]) && !IsJsSpace(s[i]) {
      assert pattern[i] in "#-:.+";
    }
  }

  lemma IsoDatePlain(d: string)
    requires IsIsoDate(d)
    ensures forall i :: 0 <= i < |d| ==> !IsTZ(d[i]) && !IsJsSpace(d[i])
  {
    if Matches(d, "####-##-##") {
      PlainText(d, "####-##-##");
    } else {
      PlainText(d[1..], "######-##-##");
      forall i | 1 <= i < |d| ensures !IsTZ(d[i]) && !IsJsSpace(d[i]) {
        assert d[i] == d[1..][i - 1];
      }
    }
  }

  /** Blanking an ISO string turns its `T` into a space and its `Z` into a
      trailing space, and leaves the rest alone. */
  lemma BlankIsoDate(date: string, time: string)
    requires forall i :: 0 <= i < |date| ==> !IsTZ(date[i])
    requires forall i :: 0 <= i < |time| ==> !IsTZ(time[i])
    ensures ReplaceTZ(date + "T" + time + "Z") == date + " " + time + " "
  {
    var iso := date + "T" + time + "Z";
    var out := date + " " + time + " ";
    forall i | 0 <= i < |iso| ensures ReplaceTZ(iso)[i] == out[i] {
      if i < |date| {
        assert iso[i] == date[i] == out[i];
      } else if |date| < i < |date| + 1 + |time| {
        assert iso[i] == time[i - |date| - 1] == out[i];
      }
    }
  }

  /** The bit-exact format the adapter promises: the ISO string of any date
      becomes `<date> <time>` (`YYYY-MM-DD HH:MM:SS.sss`), with the `T`
      turned into a space and the `Z` gone. */
  lemma FormatIsoDate(date: string, time: string)
    requires IsIsoDate(date) && IsIsoTime(time)
    ensures FormatDate(date + "T" + time + "Z") == date + " " + time
  {
    var out := date + " " + time;
    IsoDatePlain(date);
    PlainText(time, "##:##:##.###");
    BlankIsoDate(date, time);
    assert !IsJsSpace(out[0]) by { assert out[0] == date[0]; }
    assert !IsJsSpace(out[|out| - 1]) by { assert out[|out| - 1] == time[|time| - 1]; }
    assert date + " " + time + " " == [] + out + " ";
    TrimCharacterised([], out, " ");
  }

  lemma ExampleParts()
    ensures IsIsoDate("2024-01-02") && IsIsoTime("03:04:05.678")
  {
    assert Matches("2024-01-02", "####-##-##");
  }

  /** The example the adapter is known by. */
  lemma FormatDateExample()
    ensures FormatDate("2024-01-02T03:04:05.678Z") == "2024-01-02 03:04:05.678"
  {
    ExampleParts();
    assert "2024-01-02T03:04:05.678Z" == "2024-01-02" + "T" + "03:04:05.678" + "Z";
    assert "2024-01-02 03:04:05.678" == "2024-01-02" + " " + "03:04:05.678";
    FormatIsoDate("2024-01-02", "03:04:05.678");
  }
}
