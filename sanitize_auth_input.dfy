/** `sanitizeInput` and `encodeHTML` (server/utils/sanitizeAuthInput.ts):
    tag stripping with an allow list, then HTML entity encoding. */
module SanitizeAuthInput {
  import opened Wrappers
  import Text

  // ---------------------------------------------------------------- encodeHTML

  /** `s.replace(/c/g, rep)`: every occurrence of the character `c` replaced. */
  function ReplaceAll(s: string, c: char, rep: string): string
  {
    if s == [] then [] else (if s[0] == c then rep else [s[0]]) + ReplaceAll(s[1..], c, rep)
  }

  /** `encodeHTML`: the six global replacements, in the order the encoder applies them. */
  function EncodeHTML(s: string): string
  {
    var s1 := ReplaceAll(s, '&', "&amp;");
    var s2 := ReplaceAll(s1, '<', "&lt;");
    var s3 := ReplaceAll(s2, '>', "&gt;");
    var s4 := ReplaceAll(s3, '"', "&quot;");
    var s5 := ReplaceAll(s4, '\'', "&#x27;");
    ReplaceAll(s5, '/', "&#x2F;")
  }

  predicate IsSpecial(c: char) {
    c == '<' || c == '>' || c == '"' || c == '\'' || c == '/'
  }

  /** Reference definition: the entity for each special character, every
      other character left as it is. */
  function EncodeChar(c: char): (r: string)
    ensures 1 <= |r| <= 6
    ensures forall i :: 0 <= i < |r| ==> !IsSpecial(r[i])
  {
    match c
    case '&' => "&amp;"
    case '<' => "&lt;"
    case '>' => "&gt;"
    case '"' => "&quot;"
    case '\'' => "&#x27;"
    case '/' => "&#x2F;"
    case _ => [c]
  }

  /** Reference definition: each character of `s` encoded on its own. */
  function EncodeEach(s: string): (r: string)
    ensures |s| <= |r| <= 6 * |s|
    ensures forall i :: 0 <= i < |r| ==> !IsSpecial(r[i])
  {
    if s == [] then [] else
      var head, tail := EncodeChar(s[0]), EncodeEach(s[1..]);
      assert forall i :: |head| <= i < |head| + |tail| ==> (head + tail)[i] == tail[i - |head|];
      head + tail
  }

  lemma {:induction false} ReplaceAllAppend(a: string, b: string, c: char, rep: string)
    ensures ReplaceAll(a + b, c, rep) == ReplaceAll(a, c, rep) + ReplaceAll(b, c, rep)
  {
    if a == [] {
      assert a + b == b;
    } else {
      assert (a + b)[0] == a[0];
      assert (a + b)[1..] == a[1..] + b;
      ReplaceAllAppend(a[1..], b, c, rep);
    }
  }

  lemma {:induction false} ReplaceAllAbsent(s: string, c: char, rep: string)
    requires forall i :: 0 <= i < |s| ==> s[i] != c
    ensures ReplaceAll(s, c, rep) == s
  {
    if s != [] {
      ReplaceAllAbsent(s[1..], c, rep);
    }
  }

  lemma EncodeHTMLAppend(a: string, b: string)
    ensures EncodeHTML(a + b) == EncodeHTML(a) + EncodeHTML(b)
  {
    var a1, b1 := ReplaceAll(a, '&', "&amp;"), ReplaceAll(b, '&', "&amp;");
    ReplaceAllAppend(a, b, '&', "&amp;");
    var a2, b2 := ReplaceAll(a1, '<', "&lt;"), ReplaceAll(b1, '<', "&lt;");
    ReplaceAllAppend(a1, b1, '<', "&lt;");
    var a3, b3 := ReplaceAll(a2, '>', "&gt;"), ReplaceAll(b2, '>', "&gt;");
    ReplaceAllAppend(a2, b2, '>', "&gt;");
    var a4, b4 := ReplaceAll(a3, '"', "&quot;"), ReplaceAll(b3, '"', "&quot;");
    ReplaceAllAppend(a3, b3, '"', "&quot;");
    var a5, b5 := ReplaceAll(a4, '\'', "&#x27;"), ReplaceAll(b4, '\'', "&#x27;");
    ReplaceAllAppend(a4, b4, '\'', "&#x27;");
    ReplaceAllAppend(a5, b5, '/', "&#x2F;");
  }

  /** A replacement pass leaves alone the text an earlier pass produced. */
  lemma EncodeHTMLOne(c: char)
    ensures EncodeHTML([c]) == EncodeChar(c)
  {
    if c == '&' || c == '<' || c == '>' {
      EncodeHTMLOneFirst(c);
    } else {
      EncodeHTMLOneRest(c);
    }
  }

  lemma EncodeHTMLOneFirst(c: char)
    requires c == '&' || c == '<' || c == '>'
    ensures EncodeHTML([c]) == EncodeChar(c)
  {
    var e := EncodeChar(c);
    if c == '&' {
      assert ReplaceAll([c], '&', "&amp;") == e;
      ReplaceAllAbsent(e, '<', "&lt;");
      ReplaceAllAbsent(e, '>', "&gt;");
    } else if c == '<' {
      assert ReplaceAll([c], '&', "&amp;") == [c];
      assert ReplaceAll([c], '<', "&lt;") == e;
      ReplaceAllAbsent(e, '>', "&gt;");
    } else {
      assert ReplaceAll([c], '&', "&amp;") == [c];
      assert ReplaceAll([c], '<', "&lt;") == [c];
      assert ReplaceAll([c], '>', "&gt;") == e;
    }
    ReplaceAllAbsent(e, '"', "&quot;");
    ReplaceAllAbsent(e, '\'', "&#x27;");
    ReplaceAllAbsent(e, '/', "&#x2F;");
  }

  lemma EncodeHTMLOneRest(c: char)
    requires c != '&' && c != '<' && c != '>'
    ensures EncodeHTML([c]) == EncodeChar(c)
  {
    var e := EncodeChar(c);
    assert ReplaceAll([c], '&', "&amp;") == [c];
    assert ReplaceAll([c], '<', "&lt;") == [c];
    assert ReplaceAll([c], '>', "&gt;") == [c];
    if c == '"' {
      assert ReplaceAll([c], '"', "&quot;") == e;
      ReplaceAllAbsent(e, '\'', "&#x27;");
      ReplaceAllAbsent(e, '/', "&#x2F;");
    } else if c == '\'' {
      assert ReplaceAll([c], '"', "&quot;") == [c];
      assert ReplaceAll([c], '\'', "&#x27;") == e;
      ReplaceAllAbsent(e, '/', "&#x2F;");
    } else {
      assert ReplaceAll([c], '"', "&quot;") == [c];
      assert ReplaceAll([c], '\'', "&#x27;") == [c];
      assert ReplaceAll([c], '/', "&#x2F;") == e;
    }
  }

  /** The chain of replacements equals per-character encoding: because `&`
      goes first, no entity a later pass introduces is escaped again. */
  lemma {:induction false} EncodeHTMLIsPerCharacter(s: string)
    ensures EncodeHTML(s) == EncodeEach(s)
  {
    if s != [] {
      assert s == [s[0]] + s[1..];
      EncodeHTMLAppend([s[0]], s[1..]);
      EncodeHTMLOne(s[0]);
      EncodeHTMLIsPerCharacter(s[1..]);
    }
  }

  /** The encoded text contains none of `<`, `>`, `"`, `'`, `/`, is never
      shorter than the input and at most six times as long. */
  lemma EncodeHTMLOutput(s: string)
    ensures forall i :: 0 <= i < |EncodeHTML(s)| ==> !IsSpecial(EncodeHTML(s)[i])
    ensures |s| <= |EncodeHTML(s)| <= 6 * |s|
  {
    EncodeHTMLIsPerCharacter(s);
  }

  /** Reading the entities back. */
  function DecodeEntities(s: string): string
  {
    if s == [] then []
    else if |s| >= 5 && s[..5] == "&amp;" then "&" + DecodeEntities(s[5..])
    else if |s| >= 4 && s[..4] == "&lt;" then "<" + DecodeEntities(s[4..])
    else if |s| >= 4 && s[..4] == "&gt;" then ">" + DecodeEntities(s[4..])
    else if |s| >= 6 && s[..6] == "&quot;" then "\"" + DecodeEntities(s[6..])
    else if |s| >= 6 && s[..6] == "&#x27;" then "'" + DecodeEntities(s[6..])
    else if |s| >= 6 && s[..6] == "&#x2F;" then "/" + DecodeEntities(s[6..])
    else [s[0]] + DecodeEntities(s[1..])
  }

  /** Encoding loses nothing: decoding the entities gives the input back. */
  lemma {:induction false} EncodeHTMLRoundTrip(s: string)
    ensures DecodeEntities(EncodeHTML(s)) == s
  {
    EncodeHTMLIsPerCharacter(s);
    EncodeEachRoundTrip(s);
  }

  lemma {:induction false} EncodeEachRoundTrip(s: string)
    ensures DecodeEntities(EncodeEach(s)) == s
  {
    if s != [] {
      DecodeEncodedChar(s[0], EncodeEach(s[1..]));
      EncodeEachRoundTrip(s[1..]);
      assert s == [s[0]] + s[1..];
    }
  }

  /** Decoding reads one encoded character back off the front. */
  lemma DecodeEncodedChar(c: char, rest: string)
    ensures DecodeEntities(EncodeChar(c) + rest) == [c] + DecodeEntities(rest)
  {
    var e := EncodeChar(c);
    var t := e + rest;
    assert t[|e|..] == rest;
    if c != '&' && !IsSpecial(c) {
      DecodePlainChar(c, rest);
    } else {
      assert forall i :: 0 <= i < |e| ==> t[i] == e[i];
      assert |t| >= 4 ==> t[..4][1] == t[1];
      if c == '&' {
        assert t[..5] == "&amp;";
      } else if c == '<' {
        assert t[..4] == "&lt;";
      } else if c == '>' {
        assert t[..4] == "&gt;";
      } else {
        assert t[..6][1] == t[1] && t[..6][3] == t[3] && t[..6][4] == t[4];
        assert t[..5][1] == t[1];
        if c == '"' {
          assert t[..6] == "&quot;";
        } else if c == '\'' {
          assert t[..6] == "&#x27;";
        } else {
          assert t[..6] == "&#x2F;";
        }
      }
    }
  }

  /** A character without an entity decodes as itself. */
  lemma DecodePlainChar(c: char, rest: string)
    requires c != '&' && !IsSpecial(c)
    ensures DecodeEntities([c] + rest) == [c] + DecodeEntities(rest)
  {
    var t := [c] + rest;
    assert t[0] == c && t[1..] == rest;
    assert |t| >= 4 ==> t[..4][0] == c;
    assert |t| >= 5 ==> t[..5][0] == c;
    assert |t| >= 6 ==> t[..6][0] == c;
  }

  // ------------------------------------------------------------- sanitizeInput

  /** An entry of `allowList`: a plain string, or an object naming a tag and
      its attributes. */
  datatype AllowEntry = TagText(text: string) | TagRule(tag: string, attributes: seq<string>)

  /** A property of the caller's options object: not present, present with
      the value `undefined`, or present with a value. */
  datatype Field<T> = Absent | Undefined | Given(value: T)

  datatype SanitizerOptions = SanitizerOptions(allowList: Field<seq<AllowEntry>>, encodeHTML: Field<bool>)

  /** The options after `{ ...defaultOptions, ...options }`; `None` is `undefined`. */
  datatype MergedOptions = MergedOptions(allowList: Option<seq<AllowEntry>>, encodeHTML: Option<bool>)

  const NoOptions := SanitizerOptions(Absent, Absent)

  function MergeField<T>(default: T, f: Field<T>): (r: Option<T>)
    ensures f.Absent? ==> r == Some(default)
    ensures f.Undefined? ==> r == None
    ensures f.Given? ==> r == Some(f.value)
  {
    match f
    case Absent => Some(default)
    case Undefined => None
    case Given(v) => Some(v)
  }

  /** Defaults: an empty allow list and encoding on; every property the caller
      spells out, even as `undefined`, replaces the default. */
  function Merge(options: SanitizerOptions): (m: MergedOptions)
  {
    MergedOptions(MergeField([], options.allowList), MergeField(true, options.encodeHTML))
  }

  /** `allowList?.includes(tag.toLowerCase())`: `includes` compares with
      `===`, so an object entry never matches a tag string. */
  function Allowed(tag: string, allowList: Option<seq<AllowEntry>>): (b: bool)
    ensures b <==> allowList.Some? && TagText(Text.ToLower(tag)) in allowList.value
  {
    allowList.Some? && Includes(allowList.value, Text.ToLower(tag))
  }

  function Includes(entries: seq<AllowEntry>, text: string): (b: bool)
    ensures b <==> TagText(text) in entries
  {
    if entries == [] then false
    else entries[0] == TagText(text) || Includes(entries[1..], text)
  }

  /** Index of the first `>` at or after `from`, or `|s|` if there is none. */
  function FindClose(s: string, from: nat): (j: nat)
    requires from <= |s|
    ensures from <= j <= |s|
    ensures j < |s| ==> s[j] == '>'
    ensures forall k :: from <= k < j ==> s[k] != '>'
    decreases |s| - from
  {
    if from == |s| || s[from] == '>' then from else FindClose(s, from + 1)
  }

  /** `<\/?[^>]+(>|$)` matches at the start of `s`: a `<` followed by at least
      one character other than `>` (the optional `/` is such a character). */
  predicate TagStarts(s: string) {
    |s| >= 2 && s[0] == '<' && s[1] != '>'
  }

  /** Length of the tag at the start of `s`: through the next `>`, or to the
      end of the input when there is none. */
  function TagLength(s: string): (n: nat)
    requires TagStarts(s)
    ensures 2 <= n <= |s|
    ensures s[n - 1] == '>' || n == |s|
  {
    var j := FindClose(s, 1);
    if j < |s| then j + 1 else |s|
  }

  /** The global replace: scanning left to right, each non-overlapping tag is
      kept when allowed and removed otherwise; other text is copied. */
  function StripTags(s: string, allowList: Option<seq<AllowEntry>>): (r: string)
    ensures |r| <= |s|
    decreases |s|
  {
    if s == [] then []
    else if TagStarts(s) then
      var n := TagLength(s);
      (if Allowed(s[..n], allowList) then s[..n] else []) + StripTags(s[n..], allowList)
    else [s[0]] + StripTags(s[1..], allowList)
  }

  /** `sanitizeInput(input, options)`. */
  function SanitizeInput(input: string, options: SanitizerOptions): string
  {
    var m := Merge(options);
    var stripped := StripTags(input, m.allowList);
    if m.encodeHTML == Some(true) then EncodeHTML(stripped) else stripped
  }

  /** Text with no `<` has no tag, so stripping leaves it unchanged. */
  lemma {:induction false} StripTagsWithoutLt(s: string, allowList: Option<seq<AllowEntry>>)
    requires forall i :: 0 <= i < |s| ==> s[i] != '<'
    ensures StripTags(s, allowList) == s
  {
    if s != [] {
      StripTagsWithoutLt(s[1..], allowList);
    }
  }

  /** No tag begins anywhere in `s`. */
  predicate NoTag(s: string) {
    forall k :: 0 <= k < |s| ==> !TagStarts(s[k..])
  }

  lemma {:induction false} StripTagsHead(s: string, allowList: Option<seq<AllowEntry>>)
    requires s != [] && !TagStarts(s)
    ensures StripTags(s, allowList) != [] && StripTags(s, allowList)[0] == s[0]
  {
  }

  /** When nothing is allowed, no tag survives: every remaining `<` is the
      last character or is followed by `>`. */
  lemma {:induction false} StripTagsLeavesNoTag(s: string, allowList: Option<seq<AllowEntry>>)
    requires allowList.None? || allowList == Some([])
    ensures NoTag(StripTags(s, allowList))
    decreases |s|
  {
    if s == [] {
    } else if TagStarts(s) {
      var n := TagLength(s);
      assert StripTags(s, allowList) == StripTags(s[n..], allowList);
      StripTagsLeavesNoTag(s[n..], allowList);
    } else {
      var rest := StripTags(s[1..], allowList);
      StripTagsLeavesNoTag(s[1..], allowList);
      var r := [s[0]] + rest;
      assert r == StripTags(s, allowList);
      forall k | 0 <= k < |r| ensures !TagStarts(r[k..]) {
        if k == 0 {
          if |r| >= 2 && s[0] == '<' {
            assert |s| >= 2 && s[1] == '>';
            StripTagsHead(s[1..], allowList);
            assert r[1] == '>';
          }
        } else {
          assert r[k..] == rest[k - 1..];
        }
      }
    }
  }

  /** With the default options the result holds no tag and none of the
      characters `<`, `>`, `"`, `'`, `/`; it is the entity encoding of the
      input with its tags removed. */
  lemma SanitizeDefault(input: string)
    ensures SanitizeInput(input, NoOptions) == EncodeHTML(StripTags(input, Some([])))
    ensures forall i :: 0 <= i < |SanitizeInput(input, NoOptions)| ==>
              !IsSpecial(SanitizeInput(input, NoOptions)[i])
  {
    EncodeHTMLOutput(StripTags(input, Some([])));
  }

  /** With encoding switched off, input without `<` comes back unchanged. */
  lemma SanitizeUnencodedPlainText(input: string, allowList: Field<seq<AllowEntry>>)
    requires forall i :: 0 <= i < |input| ==> input[i] != '<'
    ensures SanitizeInput(input, SanitizerOptions(allowList, Given(false))) == input
    ensures SanitizeInput(input, SanitizerOptions(allowList, Undefined)) == input
  {
    StripTagsWithoutLt(input, Merge(SanitizerOptions(allowList, Given(false))).allowList);
  }

  /** The allow list is compared with the WHOLE lower-cased tag text, so a
      bare tag name such as "b" keeps nothing, while "<b>" keeps `<b>`. */
  lemma AllowListMatchesWholeTag()
    ensures StripTags("<b>x", Some([TagText("b")])) == "x"
    ensures StripTags("<B>x", Some([TagText("<b>")])) == "<B>x"
    ensures StripTags("<b>x", Some([TagRule("<b>", [])])) == "x"
  {
    var s := "<b>x";
    assert TagStarts(s);
    assert FindClose(s, 1) == 2;
    assert s[..3] == "<b>" && s[3..] == "x";
    assert Text.ToLower("<b>") == "<b>";
    var u := "<B>x";
    assert TagStarts(u);
    assert FindClose(u, 1) == 2;
    assert u[..3] == "<B>" && u[3..] == "x";
    assert Text.ToLower("<B>") == "<b>";
  }
}
