/**
 * The pure core of WebbrickDevice.SetName: lower-case the candidate name,
 * delete every character outside [a-z0-9], and keep at most the first
 * sixteen characters.
 */
module NameSanitizer {

  /** The longest name the bus accepts. */
  const MaxNameLength: nat := 16

  /** Characters the regular expression [^a-z0-9] leaves in place. */
  predicate IsNameChar(c: char) {
    ('a' <= c <= 'z') || ('0' <= c <= '9')
  }

  /** True of a name every character of which survives sanitising. */
  predicate AllNameChars(s: string) {
    forall i :: 0 <= i < |s| ==> IsNameChar(s[i])
  }

  /** True of a name the bus accepts as it is. */
  predicate IsSanitized(s: string) {
    |s| <= MaxNameLength && AllNameChars(s)
  }

  /** ASCII lower-casing of one character. */
  function Lower(c: char): (d: char)
    ensures 'A' <= c <= 'Z' ==> 'a' <= d <= 'z'
    ensures 'A' <= c <= 'Z' ==> d as int - 'a' as int == c as int - 'A' as int
    ensures !('A' <= c <= 'Z') ==> d == c
  {
    if 'A' <= c <= 'Z' then (c as int - 'A' as int + 'a' as int) as char else c
  }

  /** strings.ToLower, restricted to ASCII. */
  function LowerAll(s: string): (r: string)
    ensures |r| == |s|
    ensures forall i :: 0 <= i < |s| ==> r[i] == Lower(s[i])
  {
    seq(|s|, i requires 0 <= i < |s| => Lower(s[i]))
  }

  /** The regular-expression replacement: drop every character outside [a-z0-9]. */
  function Strip(s: string): (r: string)
    ensures AllNameChars(r)
    ensures |r| <= |s|
  {
    if s == [] then []
    else (if IsNameChar(s[0]) then [s[0]] else []) + Strip(s[1..])
  }

  /** Lower-cased and stripped, before truncation. */
  function Filtered(name: string): (f: string)
    ensures AllNameChars(f)
    ensures |f| <= |name|
  {
    Strip(LowerAll(name))
  }

  /** The sanitised name that SetName stores and returns. It is the longest
    * prefix of the filtered name that is at most sixteen characters long. */
  function Sanitize(name: string): (safe: string)
    ensures IsSanitized(safe)
    ensures safe <= Filtered(name)
    ensures |safe| == if |Filtered(name)| > MaxNameLength then MaxNameLength else |Filtered(name)|
  {
    var f := Filtered(name);
    if |f| > MaxNameLength then f[..MaxNameLength] else f
  }

  /** Stripping distributes over concatenation, so it keeps exactly the name
    * characters, each in its original order. */
  lemma {:induction false} StripAppend(a: string, b: string)
    ensures Strip(a + b) == Strip(a) + Strip(b)
  {
    if a == [] {
      assert a + b == b;
    } else {
      assert (a + b)[0] == a[0];
      assert (a + b)[1..] == a[1..] + b;
      StripAppend(a[1..], b);
    }
  }

  /** A single character survives stripping exactly when it is a name character. */
  lemma StripSingle(c: char)
    ensures Strip([c]) == if IsNameChar(c) then [c] else []
  {
    assert [c][1..] == [];
  }

  /** Stripping leaves a string of name characters untouched. */
  lemma {:induction false} StripKeepsNameChars(s: string)
    requires AllNameChars(s)
    ensures Strip(s) == s
  {
    if s != [] {
      assert AllNameChars(s[1..]) by {
        forall i | 0 <= i < |s[1..]| ensures IsNameChar(s[1..][i]) {
          assert s[1..][i] == s[i + 1];
        }
      }
      StripKeepsNameChars(s[1..]);
      assert IsNameChar(s[0]);
      assert [s[0]] + s[1..] == s;
    }
  }

  /** Lower-casing leaves a string of name characters untouched. */
  lemma LowerKeepsNameChars(s: string)
    requires AllNameChars(s)
    ensures LowerAll(s) == s
  {
  }

  /** Filtering leaves a string of name characters untouched. */
  lemma FilteredKeepsNameChars(s: string)
    requires AllNameChars(s)
    ensures Filtered(s) == s
  {
    LowerKeepsNameChars(s);
    StripKeepsNameChars(s);
  }

  /** Sanitising an already-sanitised name returns it unchanged. */
  lemma SanitizeIdempotent(name: string)
    ensures Sanitize(Sanitize(name)) == Sanitize(name)
  {
    FilteredKeepsNameChars(Sanitize(name));
  }

  /** A name is left unchanged by sanitising exactly when the bus accepts it as it is. */
  lemma SanitizeFixedPoints(s: string)
    ensures Sanitize(s) == s <==> IsSanitized(s)
  {
    if IsSanitized(s) {
      FilteredKeepsNameChars(s);
    }
  }

  /** A name made only of legal characters but too long is cut to its first sixteen. */
  lemma SanitizeTruncatesLegalName(s: string)
    requires AllNameChars(s) && |s| > MaxNameLength
    ensures Sanitize(s) == s[..MaxNameLength]
  {
    FilteredKeepsNameChars(s);
  }

  /** The worked example: spaces and punctuation go, capitals are lowered. */
  lemma SanitizeExample()
    ensures Sanitize("Living Room #1!") == "livingroom1"
  {
    var name := "Living Room #1!";
    assert Filtered(name) == "livingroom1" by {
      LowerExample();
      assert "living room #1!" == "living" + (" room" + " #1!");
      StripExample();
    }
  }

  lemma LowerExample()
    ensures LowerAll("Living Room #1!") == "living room #1!"
  {
    var r := LowerAll("Living Room #1!");
    assert r[0] == 'l';
  }

  lemma StripExample()
    ensures Strip("living" + (" room" + " #1!")) == "livingroom1"
  {
    StripRoomTail();
    StripAppend("living", " room" + " #1!");
    StripKeepsNameChars("living");
  }

  lemma StripRoomTail()
    ensures Strip(" room" + " #1!") == "room1"
  {
    StripAppend(" room", " #1!");
    assert " room" == [' '] + "room";
    StripAppend([' '], "room");
    StripSingle(' ');
    StripKeepsNameChars("room");
    assert " #1!" == " #" + "1!";
    StripAppend(" #", "1!");
    StripSpaceHash();
    StripOneBang();
  }

  lemma StripSpaceHash()
    ensures Strip(" #") == []
  {
    assert " #" == [' '] + ['#'];
    StripAppend([' '], ['#']);
    StripSingle(' ');
    StripSingle('#');
  }

  lemma StripOneBang()
    ensures Strip("1!") == "1"
  {
    assert "1!" == ['1'] + ['!'];
    StripAppend(['1'], ['!']);
    StripSingle('1');
    StripSingle('!');
  }
}
