/**
 Field-name matching for the panel: a name is lower-cased and then tested
 for a prefix.  Only ASCII case folding is modelled.
 */
module Text {

  predicate IsUpper(c: char) {
    'A' <= c <= 'Z'
  }

  /** ASCII lower-casing of one character; every other character is kept. */
  function LowerChar(c: char): (r: char)
    ensures !IsUpper(r)
    ensures r == c || (IsUpper(c) && r as int - c as int == 32)
  {
    if IsUpper(c) then (c as int + 32) as char else c
  }

  /** Lower-casing of a whole name, character by character. */
  function Lower(s: string): (r: string)
    ensures |r| == |s|
    ensures forall i :: 0 <= i < |s| ==> r[i] == LowerChar(s[i])
  {
    if |s| == 0 then "" else [LowerChar(s[0])] + Lower(s[1..])
  }

  /** `prefix` is an initial segment of `s`. */
  predicate StartsWith(s: string, prefix: string) {
    |prefix| == 0 || (|s| > 0 && s[0] == prefix[0] && StartsWith(s[1..], prefix[1..]))
  }

  /** The recursive prefix test agrees with slicing. */
  lemma {:induction false} StartsWithSlice(s: string, prefix: string)
    ensures StartsWith(s, prefix) <==> |prefix| <= |s| && s[..|prefix|] == prefix
  {
    if |prefix| != 0 && |s| > 0 {
      StartsWithSlice(s[1..], prefix[1..]);
      if |prefix| <= |s| {
        assert s[..|prefix|] == [s[0]] + s[1..][..|prefix| - 1];
        assert prefix == [prefix[0]] + prefix[1..];
      }
    }
  }

  /** The test the panel applies to a field name: lower-case it, then check the prefix. */
  predicate NameMatches(name: string, prefix: string) {
    StartsWith(Lower(name), prefix)
  }

  predicate IsLowerLetter(c: char) {
    'a' <= c <= 'z'
  }

  /** For a prefix of lower-case letters the test is a case-insensitive
      comparison: each leading character of the name is the prefix letter or
      its capital. */
  lemma NameMatchesIgnoringCase(name: string, prefix: string)
    requires forall i :: 0 <= i < |prefix| ==> IsLowerLetter(prefix[i])
    ensures NameMatches(name, prefix) <==>
              |prefix| <= |name| &&
              forall i :: 0 <= i < |prefix| ==>
                name[i] == prefix[i] || name[i] as int == prefix[i] as int - 32
  {
    var low := Lower(name);
    StartsWithSlice(low, prefix);
    if |prefix| <= |name| {
      if NameMatches(name, prefix) {
        forall i | 0 <= i < |prefix|
          ensures name[i] == prefix[i] || name[i] as int == prefix[i] as int - 32
        {
          assert low[..|prefix|][i] == prefix[i];
        }
      }
      if forall i :: 0 <= i < |prefix| ==>
           name[i] == prefix[i] || name[i] as int == prefix[i] as int - 32
      {
        forall i | 0 <= i < |prefix|
          ensures low[..|prefix|][i] == prefix[i]
        {
          assert low[i] == LowerChar(name[i]);
        }
        assert low[..|prefix|] == prefix;
      }
    }
  }

  /** A matching name agrees with the prefix, after lower-casing, at every prefix position. */
  lemma NameMatchesAt(name: string, prefix: string, i: nat)
    requires NameMatches(name, prefix) && i < |prefix|
    ensures i < |name| && LowerChar(name[i]) == prefix[i]
  {
    StartsWithSlice(Lower(name), prefix);
    assert Lower(name)[..|prefix|][i] == prefix[i];
  }

  /** A name whose leading characters lower-case to the prefix matches it. */
  lemma NameMatchesByChars(name: string, prefix: string)
    requires |prefix| <= |name|
    requires forall i :: 0 <= i < |prefix| ==> LowerChar(name[i]) == prefix[i]
    ensures NameMatches(name, prefix)
  {
    var low := Lower(name);
    StartsWithSlice(low, prefix);
    assert low[..|prefix|] == prefix;
  }

  /** "Lon", "LONGITUDE" and "longitude_deg" all qualify as longitude names. */
  lemma LonNameExamples()
    ensures NameMatches("Lon", "lon")
    ensures NameMatches("LONGITUDE", "lon")
    ensures NameMatches("longitude_deg", "lon")
  {
    NameMatchesByChars("Lon", "lon");
    NameMatchesByChars("LONGITUDE", "lon");
    NameMatchesByChars("longitude_deg", "lon");
  }

  /** "lo" is too short and "x_lon" has the letters in the wrong place. */
  lemma NonLonNameExamples()
    ensures !NameMatches("lo", "lon")
    ensures !NameMatches("x_lon", "lon")
  {
  }

  /** No name qualifies both as a longitude and as a latitude: the second letters differ. */
  lemma LonLatExclusive(name: string)
    ensures !(NameMatches(name, "lon") && NameMatches(name, "lat"))
  {
    if NameMatches(name, "lon") && NameMatches(name, "lat") {
      NameMatchesAt(name, "lon", 1);
      NameMatchesAt(name, "lat", 1);
    }
  }
}
