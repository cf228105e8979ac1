/**
 * The text-shaping part of the document reader: which file names it reads,
 * how it recognises list items, and how it turns plain text, PDF page text
 * and table rows into markdown. Reading the files themselves is left to the
 * format libraries and is not modelled.
 *
 * `unicodedata.category` is an input: `isSymbol(c)` says whether the
 * category of `c` is one of `So`, `Sm` or `Sc`.
 */
module DocumentReader {
  import opened Wrappers
  import opened Text
  import opened Paths

  // ---------------------------------------------------------------------
  // Supported formats
  // ---------------------------------------------------------------------

  /** The keys of `supported_formats`, in registration order. */
  const SupportedFormats: seq<string> := [".pdf", ".docx", ".pptx", ".txt", ".md", ".csv", ".xlsx"]

  /** `get_supported_formats`. */
  function GetSupportedFormats(): (r: seq<string>)
    ensures |r| == 7
    ensures forall i, j :: 0 <= i < j < |r| ==> r[i] != r[j]
    ensures forall i :: 0 <= i < |r| ==> 2 <= |r[i]| && r[i][0] == '.' && Lower(r[i]) == r[i] && '.' !in r[i][1..]
  {
    SupportedFormats
  }

  /** `is_supported`: the lowercased suffix of the file name is a registered extension. */
  predicate IsSupported(path: string)
  {
    Lower(Suffix(BaseName(path))) in SupportedFormats
  }

  lemma {:induction false} LastComponentAfterSlash(dir: string, name: string)
    requires '/' !in name
    ensures LastComponent(dir + "/" + name) == name
    decreases |name|
  {
    var p := dir + "/" + name;
    if name == [] {
      assert p[|p| - 1] == '/';
    } else {
      var init := name[..|name| - 1];
      assert p[..|p| - 1] == dir + "/" + init;
      LastComponentAfterSlash(dir, init);
      assert name == init + [name[|name| - 1]];
    }
  }

  /**
   * A file `stem + ext` in any folder is supported when `ext` is a
   * registered extension in any letter case.
   */
  lemma IsSupportedSpec(dir: string, stem: string, ext: string)
    requires stem != [] && '/' !in stem
    requires Lower(ext) in SupportedFormats
    ensures IsSupported(dir + "/" + stem + ext)
  {
    ExtensionShape(ext);
    NotInConcat(stem, ext, '/');
    NameInFolder(dir, stem + ext);
    SuffixOfStemExt(stem, ext);
    ConcatAssoc(dir + "/", stem, ext);
    SupportedBySuffix(dir + "/" + stem + ext, ext);
  }

  lemma SupportedBySuffix(path: string, ext: string)
    requires Suffix(BaseName(path)) == ext && Lower(ext) in SupportedFormats
    ensures IsSupported(path)
  {
  }

  /** A path whose name has no suffix is never supported. */
  lemma NoSuffixUnsupported(path: string)
    requires Suffix(BaseName(path)) == ""
    ensures !IsSupported(path)
  {
    LowerEmpty();
    EmptyIsNoFormat();
  }

  lemma LowerEmpty()
    ensures Lower("") == ""
  {
  }

  lemma EmptyIsNoFormat()
    ensures "" !in SupportedFormats
  {
    assert forall k :: 0 <= k < |SupportedFormats| ==> SupportedFormats[k] != "";
  }

  lemma NotInConcat(a: string, b: string, c: char)
    requires c !in a && c !in b
    ensures c !in a + b
  {
    forall i | 0 <= i < |a + b| ensures (a + b)[i] != c {
      if i >= |a| {
        assert (a + b)[i] == b[i - |a|];
      }
    }
  }

  /** A registered extension, in any letter case, is a dot and a dot-free, slash-free tail. */
  lemma ExtensionShape(ext: string)
    requires Lower(ext) in SupportedFormats
    ensures 2 <= |ext| && ext[0] == '.' && '.' !in ext[1..] && '/' !in ext
  {
    var f := Lower(ext);
    assert 2 <= |f| && f[0] == '.' && '.' !in f[1..] && '/' !in f;
    assert ext[0] == '.' by {
      assert LowerChar(ext[0]) == '.';
    }
    forall i | 0 <= i < |ext| ensures ext[i] != '/' && (i > 0 ==> ext[i] != '.') {
      assert LowerChar(ext[i]) == f[i];
      if i > 0 {
        assert f[1..][i - 1] == f[i];
      }
    }
    assert '.' !in ext[1..] by {
      forall j | 0 <= j < |ext[1..]| ensures ext[1..][j] != '.' {
        assert ext[1..][j] == ext[j + 1];
      }
    }
  }

  /** The name of a file in a folder is what follows the folder's slash. */
  lemma NameInFolder(dir: string, name: string)
    requires name != [] && '/' !in name
    ensures BaseName(dir + "/" + name) == name
  {
    var path := dir + "/" + name;
    assert path[|path| - 1] == name[|name| - 1];
    assert TrimSlashes(path) == path;
    LastComponentAfterSlash(dir, name);
  }

  /** Appending an extension to a non-empty stem makes it the suffix. */
  lemma SuffixOfStemExt(stem: string, ext: string)
    requires stem != []
    requires 2 <= |ext| && ext[0] == '.' && '.' !in ext[1..]
    ensures Suffix(stem + ext) == ext
  {
    var name := stem + ext;
    SuffixSpec(name);
    var i := |stem|;
    assert name[i] == '.' && name[i + 1..] == ext[1..];
    assert Suffix(name) != "";
    var x := Suffix(name);
    var j := |name| - |x|;
    assert x[0] == '.' && name[j] == '.';
    assert name[j..] == x;
  }

  // ---------------------------------------------------------------------
  // List items
  // ---------------------------------------------------------------------

  /** The code-point ranges a symbol bullet must fall in. */
  predicate InBulletRange(c: char)
  {
    ('\U{2022}' <= c <= '\U{2043}') || ('\U{25A0}' <= c <= '\U{25FF}') || ('\U{2190}' <= c <= '\U{21FF}') ||
    ('\U{2600}' <= c <= '\U{26FF}') || ('\U{2700}' <= c <= '\U{27BF}')
  }

  /** The first characters of the ASCII bullet pattern `^[-*+•◦▪▫‣⁃] `. */
  predicate IsAsciiBullet(c: char)
  {
    c == '-' || c == '*' || c == '+' || c == '\U{2022}' || c == '\U{25E6}' || c == '\U{25AA}' ||
    c == '\U{25AB}' || c == '\U{2023}' || c == '\U{2043}'
  }

  /** The special bullets tried last. */
  predicate IsSpecialBullet(c: char)
  {
    c == '\U{2192}' || c == '\U{27A4}' || c == '\U{25B6}' || c == '\U{25BA}' || c == '\U{2023}' || c == '\U{2043}' ||
    c == '\U{29BF}' || c == '\U{29BE}' || c == '\U{25CB}' || c == '\U{25CF}' || c == '\U{25EF}' || c == '\U{25C9}'
  }

  /** What may follow a number: `[.)\-:/\\]`. */
  predicate IsNumberDelimiter(c: char)
  {
    c == '.' || c == ')' || c == '-' || c == ':' || c == '/' || c == '\\'
  }

  /** What may follow a letter or a roman numeral: `[.)\-:]`. */
  predicate IsLetterDelimiter(c: char)
  {
    c == '.' || c == ')' || c == '-' || c == ':'
  }

  predicate IsDigit(c: char) { '0' <= c <= '9' }
  predicate IsAsciiLetter(c: char) { 'a' <= c <= 'z' || 'A' <= c <= 'Z' }
  predicate IsRomanLetter(c: char)
  {
    c == 'i' || c == 'v' || c == 'x' || c == 'l' || c == 'c' || c == 'd' || c == 'm' ||
    c == 'I' || c == 'V' || c == 'X' || c == 'L' || c == 'C' || c == 'D' || c == 'M'
  }

  /** Every character of `s` satisfies `p`. */
  predicate Every(p: char -> bool, s: string)
    decreases |s|
  {
    s == [] || (p(s[0]) && Every(p, s[1..]))
  }

  /** The length of the longest prefix of `s` whose characters satisfy `p`. */
  function RunLength(s: string, p: char -> bool): (n: nat)
    ensures n <= |s|
    ensures n < |s| ==> !p(s[n])
  {
    if s == [] || !p(s[0]) then 0 else 1 + RunLength(s[1..], p)
  }

  /**
   * The length matched by `marker, delimiter\s+` when the marker is the
   * first `n` characters of `s`, or 0 when the pattern does not match.
   */
  function MarkerMatch(s: string, n: nat, isDelimiter: char -> bool): (m: nat)
    requires n <= |s|
    ensures m == 0 || (n + 1 < m <= |s| && AllSpace(s[n + 1..m]))
  {
    if 0 < n < |s| && isDelimiter(s[n]) then
      var rest := s[n + 1..];
      var w := |rest| - |LStrip(rest)|;
      assert s[n + 1..n + 1 + w] == rest[..w];
      if w > 0 then n + 1 + w else 0
    else 0
  }

  /** The two shapes of markdown list item the reader emits. */
  datatype Kind = Bullet | Numbered

  /** A recognised list item: its shape and its text. */
  datatype ListItem = ListItem(kind: Kind, text: string)

  /** The markdown line for an item: `- text` or `1. text`. */
  function Markdown(item: ListItem): (r: string)
    ensures StartsWith(r, if item.kind == Bullet then "- " else "1. ")
    ensures EndsWith(r, item.text)
  {
    (if item.kind == Bullet then "- " else "1. ") + item.text
  }

  /** A symbol character in the bullet ranges, with text after it. */
  predicate SymbolBulletAt(isSymbol: char -> bool, s: string)
  {
    |s| > 1 && isSymbol(s[0]) && InBulletRange(s[0])
  }

  /** A bullet of the given family followed by a space. */
  predicate BulletAt(isBullet: char -> bool, s: string)
  {
    |s| > 1 && isBullet(s[0]) && s[1] == ' '
  }

  /** Where the text after `^\d+[.)\-:/\\]\s+` starts, or 0. */
  function NumberEnd(s: string): nat
  {
    MarkerMatch(s, RunLength(s, IsDigit), IsNumberDelimiter)
  }

  /** Where the text after `^[a-zA-Z][.)\-:]\s+` starts, or 0. */
  function LetterEnd(s: string): nat
  {
    MarkerMatch(s, if s != [] && IsAsciiLetter(s[0]) then 1 else 0, IsLetterDelimiter)
  }

  /** Where the text after `^[ivxlcdmIVXLCDM]+[.)\-:]\s+` starts, or 0. */
  function RomanEnd(s: string): nat
  {
    MarkerMatch(s, RunLength(s, IsRomanLetter), IsLetterDelimiter)
  }

  /** A recognised marker: the kind of item and where its text starts. */
  datatype Marker = Marker(kind: Kind, start: nat)

  /**
   * The pattern a stripped line starts with, tried in the source's order,
   * and where the item text begins.
   */
  function ItemMarker(isSymbol: char -> bool, s: string): (r: Option<Marker>)
    ensures r.Some? ==> 1 <= r.value.start <= |s|
  {
    if SymbolBulletAt(isSymbol, s) then Some(Marker(Bullet, 1))
    else if BulletAt(IsAsciiBullet, s) then Some(Marker(Bullet, 1))
    else if NumberEnd(s) > 0 then Some(Marker(Numbered, NumberEnd(s)))
    else if LetterEnd(s) > 0 then Some(Marker(Numbered, LetterEnd(s)))
    else if RomanEnd(s) > 0 then Some(Marker(Numbered, RomanEnd(s)))
    else if BulletAt(IsSpecialBullet, s) then Some(Marker(Bullet, 1))
    else None
  }

  /** `s` starts with a marker of the given kind whose text starts at `k`. */
  predicate HasMarker(isSymbol: char -> bool, s: string, kind: Kind, k: nat)
  {
    var m := ItemMarker(isSymbol, s);
    m.Some? && m.value.kind == kind && m.value.start == k
  }

  /** `_detect_list_item`: the list item a line stands for, if any. */
  function DetectListItem(isSymbol: char -> bool, line: string): Option<ListItem>
  {
    var s := Strip(line);
    if s == [] then None
    else match ItemMarker(isSymbol, s)
      case None => None
      case Some(Marker(kind, start)) => Some(ListItem(kind, Strip(s[start..])))
  }

  /** The markdown `_detect_list_item` returns. */
  function DetectListItemText(isSymbol: char -> bool, line: string): (r: Option<string>)
  {
    match DetectListItem(isSymbol, line)
    case None => None
    case Some(item) => Some(Markdown(item))
  }

  /**
   * A blank line is no list item, and an item's text holds no character
   * the line does not, so it is a single line when the line is.
   */
  lemma DetectListItemShape(isSymbol: char -> bool, line: string, c: char)
    ensures AllSpace(line) ==> DetectListItem(isSymbol, line) == None
    ensures var r := DetectListItem(isSymbol, line);
      r.Some? && c !in line ==> c !in r.value.text
  {
    StripEmptyIffAllSpace(line);
    var s := Strip(line);
    if c !in line && s != [] {
      StripWithin(line, c);
      var m := ItemMarker(isSymbol, s);
      if m.Some? {
        var k := m.value.start;
        NotInSuffix(s, k, c);
        StripWithin(s[k..], c);
      }
    }
  }

  lemma NotInSuffix(s: string, k: nat, c: char)
    requires c !in s && k <= |s|
    ensures c !in s[k..]
  {
    forall i | 0 <= i < |s[k..]| ensures s[k..][i] != c {
      assert s[k..][i] == s[k + i];
    }
  }

  /**
   * Leading and trailing whitespace never changes the result: the line is
   * stripped first, so a pattern for indented lines can never match.
   */
  lemma DetectIgnoresIndentation(isSymbol: char -> bool, ws: string, line: string, trailing: string)
    requires AllSpace(ws) && AllSpace(trailing)
    ensures DetectListItem(isSymbol, ws + line + trailing) == DetectListItem(isSymbol, line)
  {
    StripIgnoresSpace(ws, line, trailing);
    DetectOfStrip(isSymbol, ws + line + trailing, line);
  }

  lemma StripIgnoresSpace(ws: string, line: string, trailing: string)
    requires AllSpace(ws) && AllSpace(trailing)
    ensures Strip(ws + line + trailing) == Strip(line)
  {
    ConcatAssoc(ws, line, trailing);
    LStripSpacePrefix(ws, line + trailing);
    LStripAfterText(line, trailing);
  }

  /** Detection reads the stripped line only. */
  lemma DetectOfStrip(isSymbol: char -> bool, a: string, b: string)
    requires Strip(a) == Strip(b)
    ensures DetectListItem(isSymbol, a) == DetectListItem(isSymbol, b)
  {
  }

  /** Trailing whitespace does not survive a strip. */
  lemma LStripAfterText(line: string, trailing: string)
    requires AllSpace(trailing)
    ensures Strip(line + trailing) == Strip(line)
  {
    StripEmptyIffAllSpace(line);
    if AllSpace(line) {
      AllSpaceConcat(line, trailing);
      StripEmptyIffAllSpace(line + trailing);
    } else {
      var y := LStrip(line);
      var p := line[..|line| - |y|];
      SplitAt(line, |line| - |y|);
      ConcatAssoc(p, y, trailing);
      LStripSpacePrefix(p, y + trailing);
      LStripOfText(y, trailing);
      RStripTrailingSpace(y, trailing);
    }
  }

  lemma AllSpaceConcat(a: string, b: string)
    requires AllSpace(a) && AllSpace(b)
    ensures AllSpace(a + b)
  {
    forall i | 0 <= i < |a + b| ensures IsSpace((a + b)[i]) {
      if i >= |a| {
        assert (a + b)[i] == b[i - |a|];
      }
    }
  }

  lemma LStripOfText(y: string, trailing: string)
    requires y != [] && !IsSpace(y[0])
    ensures LStrip(y + trailing) == y + trailing
  {
    HeadOfConcat(y, trailing);
  }

  /**
   * In `marker + d + ws + t`, with `t` starting with non-whitespace, the
   * marker pattern matches up to the start of `t`.
   */
  lemma MarkerAt(marker: string, d: char, ws: string, t: string, isDelimiter: char -> bool, s: string)
    requires marker != [] && isDelimiter(d)
    requires ws != [] && AllSpace(ws)
    requires t != [] && !IsSpace(t[0])
    requires s == marker + [d] + ws + t
    ensures StartsWith(s, marker) && s[|marker|] == d
    ensures MarkerMatch(s, |marker|, isDelimiter) == |marker| + 1 + |ws|
    ensures s[|marker| + 1 + |ws|..] == t
  {
    var head := marker + [d];
    ConcatAssoc(head, ws, t);
    SliceConcat(head, ws + t);
    LStripSpacePrefix(ws, t);
    SliceConcat(head + ws, t);
    ConcatAssoc(marker, [d], ws + t);
    SliceConcat(marker, [d] + (ws + t));
  }

  lemma {:induction false} RunOfPrefix(s: string, prefix: string, p: char -> bool)
    requires StartsWith(s, prefix)
    requires Every(p, prefix)
    requires |prefix| < |s| && !p(s[|prefix|])
    ensures RunLength(s, p) == |prefix|
    decreases |prefix|
  {
    if prefix != [] {
      assert s[0] == prefix[0];
      assert StartsWith(s[1..], prefix[1..]) by {
        assert s[1..][..|prefix| - 1] == s[..|prefix|][1..];
      }
      RunOfPrefix(s[1..], prefix[1..], p);
    }
  }

  /** A stripped line whose marker ends at `k` is the item made of the stripped rest. */
  lemma DetectFromMarker(isSymbol: char -> bool, line: string, s: string, kind: Kind, k: nat, t: string)
    requires s == Strip(line) && HasMarker(isSymbol, s, kind, k)
    requires k <= |s| && Strip(s[k..]) == t
    ensures DetectListItem(isSymbol, line) == Some(ListItem(kind, t))
  {
  }

  lemma NumberMarker(isSymbol: char -> bool, s: string, k: nat)
    requires s != [] && IsDigit(s[0])
    requires k > 0 && NumberEnd(s) == k
    ensures HasMarker(isSymbol, s, Numbered, k)
  {
  }

  lemma LetterMarker(isSymbol: char -> bool, s: string, k: nat)
    requires s != [] && IsAsciiLetter(s[0])
    requires k > 0 && MarkerMatch(s, 1, IsLetterDelimiter) == k
    ensures HasMarker(isSymbol, s, Numbered, k)
  {
    LetterStart(isSymbol, s);
  }

  /** A line starting with a letter starts no bullet and no number. */
  lemma LetterStart(isSymbol: char -> bool, s: string)
    requires s != [] && IsAsciiLetter(s[0])
    ensures !SymbolBulletAt(isSymbol, s) && !BulletAt(IsAsciiBullet, s) && !BulletAt(IsSpecialBullet, s)
    ensures NumberEnd(s) == 0
  {
    assert RunLength(s, IsDigit) == 0;
  }

  lemma RomanMarker(isSymbol: char -> bool, s: string, k: nat)
    requires |s| > 1 && IsAsciiLetter(s[0]) && !IsLetterDelimiter(s[1])
    requires k > 0 && RomanEnd(s) == k
    ensures HasMarker(isSymbol, s, Numbered, k)
  {
    LetterStart(isSymbol, s);
    NoLetterMarker(s);
  }

  lemma NoLetterMarker(s: string)
    requires |s| > 1 && IsAsciiLetter(s[0]) && !IsLetterDelimiter(s[1])
    ensures LetterEnd(s) == 0
  {
  }

  lemma BulletMarker(isSymbol: char -> bool, s: string)
    requires |s| > 1 && (IsAsciiBullet(s[0]) || IsSpecialBullet(s[0])) && s[1] == ' '
    ensures HasMarker(isSymbol, s, Bullet, 1)
  {
    BulletIsNoText(s[0]);
    assert RunLength(s, IsDigit) == 0 && RunLength(s, IsRomanLetter) == 0;
    assert NumberEnd(s) == 0 && LetterEnd(s) == 0 && RomanEnd(s) == 0;
  }

  /** `1. text`, `12) text`, `3- text` and the like become `1. text`. */
  lemma NumberedItem(isSymbol: char -> bool, digits: string, d: char, ws: string, rest: string)
    requires digits != [] && Every(IsDigit, digits)
    requires IsNumberDelimiter(d)
    requires ws != [] && AllSpace(ws)
    requires rest != [] && !IsSpace(rest[0])
    ensures DetectListItem(isSymbol, digits + [d] + ws + rest) == Some(ListItem(Numbered, Strip(rest)))
  {
    var t := Strip(rest);
    var line := digits + [d] + ws + rest;
    var s := digits + [d] + ws + t;
    DigitsHead(digits);
    MarkedLine(digits, d, ws, rest, line, s);
    NumberMarkerAt(isSymbol, digits, d, ws, t, s);
    DetectFromMarker(isSymbol, line, s, Numbered, |digits| + 1 + |ws|, t);
  }

  lemma DigitsHead(digits: string)
    requires digits != [] && Every(IsDigit, digits)
    ensures IsDigit(digits[0]) && !IsSpace(digits[0])
  {
  }

  /** A line made of a marker, its delimiter, whitespace and text strips to the marker up to the stripped text. */
  lemma MarkedLine(marker: string, d: char, ws: string, rest: string, line: string, s: string)
    requires marker != [] && !IsSpace(marker[0])
    requires rest != [] && !IsSpace(rest[0])
    requires line == marker + [d] + ws + rest && s == marker + [d] + ws + Strip(rest)
    ensures Strip(line) == s
    ensures Strip(rest) != [] && !IsSpace(Strip(rest)[0]) && Strip(Strip(rest)) == Strip(rest)
  {
    StripOfLeadingText(rest);
    HeadOfConcat(marker, [d] + ws);
    ConcatAssoc(marker, [d], ws);
    StripAfterText(marker + [d] + ws, rest);
    StripOfTrimmed(Strip(rest));
  }

  lemma HeadOfConcat(a: string, b: string)
    requires a != []
    ensures (a + b)[0] == a[0]
  {
  }

  lemma NumberMarkerAt(isSymbol: char -> bool, digits: string, d: char, ws: string, t: string, s: string)
    requires digits != [] && Every(IsDigit, digits)
    requires IsNumberDelimiter(d)
    requires ws != [] && AllSpace(ws)
    requires t != [] && !IsSpace(t[0])
    requires s == digits + [d] + ws + t
    ensures HasMarker(isSymbol, s, Numbered, |digits| + 1 + |ws|)
    ensures s[|digits| + 1 + |ws|..] == t
  {
    MarkerAt(digits, d, ws, t, IsNumberDelimiter, s);
    assert !IsDigit(d);
    RunOfPrefix(s, digits, IsDigit);
    assert IsDigit(s[0]);
    NumberMarker(isSymbol, s, |digits| + 1 + |ws|);
  }

  /** `a. text`, `B) text` and the like become `1. text`. */
  lemma LetteredItem(isSymbol: char -> bool, letter: char, d: char, ws: string, rest: string)
    requires IsAsciiLetter(letter) && IsLetterDelimiter(d)
    requires ws != [] && AllSpace(ws)
    requires rest != [] && !IsSpace(rest[0])
    ensures DetectListItem(isSymbol, [letter] + [d] + ws + rest) == Some(ListItem(Numbered, Strip(rest)))
  {
    var t := Strip(rest);
    var line := [letter] + [d] + ws + rest;
    var s := [letter] + [d] + ws + t;
    LetterHead(letter);
    MarkedLine([letter], d, ws, rest, line, s);
    LetterMarkerAt(isSymbol, letter, d, ws, t, s);
    DetectFromMarker(isSymbol, line, s, Numbered, 2 + |ws|, t);
  }

  lemma LetterHead(letter: char)
    requires IsAsciiLetter(letter)
    ensures [letter] != [] && !IsSpace([letter][0])
  {
  }

  lemma LetterMarkerAt(isSymbol: char -> bool, letter: char, d: char, ws: string, t: string, s: string)
    requires IsAsciiLetter(letter) && IsLetterDelimiter(d)
    requires ws != [] && AllSpace(ws)
    requires t != [] && !IsSpace(t[0])
    requires s == [letter] + [d] + ws + t
    ensures HasMarker(isSymbol, s, Numbered, 2 + |ws|)
    ensures s[2 + |ws|..] == t
  {
    MarkerAt([letter], d, ws, t, IsLetterDelimiter, s);
    LetterMarker(isSymbol, s, 2 + |ws|);
  }

  /** `iv. text`, `XII) text` and the like become `1. text`. */
  lemma RomanItem(isSymbol: char -> bool, numeral: string, d: char, ws: string, rest: string)
    requires |numeral| > 1 && Every(IsRomanLetter, numeral)
    requires IsLetterDelimiter(d)
    requires ws != [] && AllSpace(ws)
    requires rest != [] && !IsSpace(rest[0])
    ensures DetectListItem(isSymbol, numeral + [d] + ws + rest) == Some(ListItem(Numbered, Strip(rest)))
  {
    var t := Strip(rest);
    var line := numeral + [d] + ws + rest;
    var s := numeral + [d] + ws + t;
    RomanHead(numeral);
    MarkedLine(numeral, d, ws, rest, line, s);
    RomanMarkerAt(isSymbol, numeral, d, ws, t, s);
    DetectFromMarker(isSymbol, line, s, Numbered, |numeral| + 1 + |ws|, t);
  }

  lemma RomanHead(numeral: string)
    requires numeral != [] && Every(IsRomanLetter, numeral)
    ensures !IsSpace(numeral[0])
  {
  }

  lemma RomanMarkerAt(isSymbol: char -> bool, numeral: string, d: char, ws: string, t: string, s: string)
    requires |numeral| > 1 && Every(IsRomanLetter, numeral)
    requires IsLetterDelimiter(d)
    requires ws != [] && AllSpace(ws)
    requires t != [] && !IsSpace(t[0])
    requires s == numeral + [d] + ws + t
    ensures HasMarker(isSymbol, s, Numbered, |numeral| + 1 + |ws|)
    ensures s[|numeral| + 1 + |ws|..] == t
  {
    RomanStart(numeral, d, ws, t, s);
    RomanEndAt(numeral, d, ws, t, s);
    RomanMarker(isSymbol, s, |numeral| + 1 + |ws|);
  }

  lemma RomanStart(numeral: string, d: char, ws: string, t: string, s: string)
    requires |numeral| > 1 && Every(IsRomanLetter, numeral)
    requires s == numeral + [d] + ws + t
    ensures |s| > 1 && IsAsciiLetter(s[0]) && !IsLetterDelimiter(s[1])
  {
    assert s[0] == numeral[0] && s[1] == numeral[1];
    assert numeral[1..][0] == numeral[1];
  }

  lemma RomanEndAt(numeral: string, d: char, ws: string, t: string, s: string)
    requires Every(IsRomanLetter, numeral) && numeral != []
    requires IsLetterDelimiter(d)
    requires ws != [] && AllSpace(ws)
    requires t != [] && !IsSpace(t[0])
    requires s == numeral + [d] + ws + t
    ensures RomanEnd(s) == |numeral| + 1 + |ws| && s[|numeral| + 1 + |ws|..] == t
  {
    MarkerAt(numeral, d, ws, t, IsLetterDelimiter, s);
    DelimiterIsNoNumeral(d);
    RunOfPrefix(s, numeral, IsRomanLetter);
  }

  lemma DelimiterIsNoNumeral(d: char)
    requires IsLetterDelimiter(d)
    ensures !IsRomanLetter(d)
  {
  }

  /** No bullet is whitespace, a digit or a letter. */
  lemma BulletIsNoText(c: char)
    requires IsAsciiBullet(c) || IsSpecialBullet(c)
    ensures !IsSpace(c) && !IsDigit(c) && !IsAsciiLetter(c) && !IsRomanLetter(c)
  {
    if c !in {'-', '*', '+'} {
      assert '\U{2022}' <= c;
    }
  }

  /** A bullet, ASCII or special, followed by a space becomes `- text`. */
  lemma BulletItem(isSymbol: char -> bool, bullet: char, ws: string, rest: string)
    requires IsAsciiBullet(bullet) || IsSpecialBullet(bullet)
    requires AllSpace(ws)
    requires rest != [] && !IsSpace(rest[0])
    ensures DetectListItem(isSymbol, [bullet] + " " + ws + rest) == Some(ListItem(Bullet, Strip(rest)))
  {
    var t := Strip(rest);
    var line := [bullet] + " " + ws + rest;
    var s := [bullet] + (" " + ws + t);
    BulletLine(bullet, ws, rest, s);
    HeadOfConcat(" ", ws);
    HeadOfConcat(" " + ws, t);
    BulletMarkerAt(isSymbol, bullet, " " + ws + t, s);
    SpaceThenSpaces(ws);
    BulletTail(bullet, " " + ws, rest, s);
    DetectFromMarker(isSymbol, line, s, Bullet, 1, t);
  }

  lemma SpaceThenSpaces(ws: string)
    requires AllSpace(ws)
    ensures AllSpace(" " + ws)
  {
    forall i | 0 <= i < |" " + ws| ensures IsSpace((" " + ws)[i]) {
      if i > 0 {
        assert (" " + ws)[i] == ws[i - 1];
      }
    }
  }

  lemma BulletMarkerAt(isSymbol: char -> bool, bullet: char, tail: string, s: string)
    requires IsAsciiBullet(bullet) || IsSpecialBullet(bullet)
    requires tail != [] && tail[0] == ' '
    requires s == [bullet] + tail
    ensures HasMarker(isSymbol, s, Bullet, 1)
  {
    assert s[0] == bullet && s[1] == ' ';
    BulletMarker(isSymbol, s);
  }

  lemma BulletLine(bullet: char, ws: string, rest: string, s: string)
    requires IsAsciiBullet(bullet) || IsSpecialBullet(bullet)
    requires rest != [] && !IsSpace(rest[0])
    requires s == [bullet] + (" " + ws + Strip(rest))
    ensures Strip([bullet] + " " + ws + rest) == s
  {
    BulletIsNoText(bullet);
    StripAfterText([bullet] + " " + ws, rest);
    ConcatAssoc([bullet], " ", ws);
    ConcatAssoc([bullet], " " + ws, Strip(rest));
  }

  lemma BulletTail(bullet: char, gap: string, rest: string, s: string)
    requires AllSpace(gap)
    requires rest != [] && !IsSpace(rest[0])
    requires s == [bullet] + (gap + Strip(rest))
    ensures Strip(s[1..]) == Strip(rest)
  {
    var t := Strip(rest);
    StripOfLeadingText(rest);
    SliceConcat([bullet], gap + t);
    assert s[1..] == gap + t;
    StripOfTrimmed(t);
    LStripSpacePrefix(gap, t);
    assert LStrip(gap + t) == t;
  }

  /** A symbol bullet in the listed ranges becomes `- text`, with or without a space after it. */
  lemma SymbolItem(isSymbol: char -> bool, bullet: char, rest: string)
    requires isSymbol(bullet) && InBulletRange(bullet) && !IsSpace(bullet)
    requires rest != [] && !IsSpace(rest[0])
    ensures DetectListItem(isSymbol, [bullet] + rest) == Some(ListItem(Bullet, Strip(rest)))
  {
    var t := Strip(rest);
    var s := [bullet] + t;
    StripOfLeadingText(rest);
    StripAfterText([bullet], rest);
    SymbolMarkerAt(isSymbol, bullet, t, s);
    StripOfTrimmed(t);
    DetectFromMarker(isSymbol, [bullet] + rest, s, Bullet, 1, t);
  }

  lemma SymbolMarkerAt(isSymbol: char -> bool, bullet: char, t: string, s: string)
    requires isSymbol(bullet) && InBulletRange(bullet)
    requires t != [] && s == [bullet] + t
    ensures HasMarker(isSymbol, s, Bullet, 1) && s[1..] == t
  {
    assert SymbolBulletAt(isSymbol, s);
  }

  /** A line whose first visible character starts no pattern is plain text. */
  lemma PlainTextLine(isSymbol: char -> bool, line: string)
    requires var s := Strip(line);
      s != [] && !IsDigit(s[0]) && !IsAsciiLetter(s[0]) && !IsAsciiBullet(s[0]) && !IsSpecialBullet(s[0]) &&
      !(isSymbol(s[0]) && InBulletRange(s[0]))
    ensures DetectListItem(isSymbol, line) == None
  {
    NoMarker(isSymbol, Strip(line));
  }

  lemma NoMarker(isSymbol: char -> bool, s: string)
    requires s != [] && !IsDigit(s[0]) && !IsAsciiLetter(s[0]) && !IsAsciiBullet(s[0]) && !IsSpecialBullet(s[0])
    requires !(isSymbol(s[0]) && InBulletRange(s[0]))
    ensures ItemMarker(isSymbol, s) == None
  {
    NoMarkerEnds(s);
  }

  lemma NoMarkerEnds(s: string)
    requires s != [] && !IsDigit(s[0]) && !IsAsciiLetter(s[0])
    ensures NumberEnd(s) == 0 && LetterEnd(s) == 0 && RomanEnd(s) == 0
  {
    NonLetterIsNoNumeral(s[0]);
  }

  lemma NonLetterIsNoNumeral(c: char)
    requires !IsAsciiLetter(c)
    ensures !IsRomanLetter(c)
  {
  }

  // ---------------------------------------------------------------------
  // Plain text
  // ---------------------------------------------------------------------

  /** One line of `_format_text_as_markdown`. */
  function FormatTextLine(isSymbol: char -> bool, line: string): string
  {
    if Strip(line) == [] then line
    else match DetectListItem(isSymbol, line)
      case Some(item) => Markdown(item)
      case None => RStrip(line)
  }

  function FormatTextLines(isSymbol: char -> bool, lines: seq<string>): (r: seq<string>)
    ensures |r| == |lines|
  {
    if lines == [] then []
    else FormatTextLines(isSymbol, lines[..|lines| - 1]) + [FormatTextLine(isSymbol, lines[|lines| - 1])]
  }

  /** `_format_text_as_markdown`: each line is formatted on its own and the lines are joined again. */
  method FormatTextAsMarkdown(isSymbol: char -> bool, text: string) returns (r: string)
    ensures r == Join(FormatTextLines(isSymbol, SplitOn(text, '\n')), "\n")
  {
    var lines := SplitOn(text, '\n');
    var formatted: seq<string> := [];
    var i := 0;
    while i < |lines|
      invariant 0 <= i <= |lines|
      invariant formatted == FormatTextLines(isSymbol, lines[..i])
    {
      FormatTextLinesStep(isSymbol, lines, i);
      var line := lines[i];
      var item := FormatTextLine(isSymbol, line);
      formatted := formatted + [item];
      i := i + 1;
    }
    WholePrefix(lines);
    r := Join(formatted, "\n");
  }

  lemma FormatTextLinesStep(isSymbol: char -> bool, lines: seq<string>, i: nat)
    requires i < |lines|
    ensures FormatTextLines(isSymbol, lines[..i + 1]) == FormatTextLines(isSymbol, lines[..i]) + [FormatTextLine(isSymbol, lines[i])]
  {
    assert lines[..i + 1][..i] == lines[..i];
  }

  /**
   * A blank line is kept as it is, a list item is replaced by its markdown,
   * any other line loses its trailing whitespace, and no line break is
   * introduced.
   */
  lemma FormatTextLineSpec(isSymbol: char -> bool, line: string)
    ensures var out := FormatTextLine(isSymbol, line);
      && (AllSpace(line) ==> out == line)
      && (!AllSpace(line) && DetectListItem(isSymbol, line).Some? ==> out == Markdown(DetectListItem(isSymbol, line).value))
      && (!AllSpace(line) && DetectListItem(isSymbol, line).None? ==> out == RStrip(line))
  {
    StripEmptyIffAllSpace(line);
  }

  /** A line without a line break is formatted into a line without one. */
  lemma FormatTextLineNoBreak(isSymbol: char -> bool, line: string)
    requires '\n' !in line
    ensures '\n' !in FormatTextLine(isSymbol, line)
  {
    var item := DetectListItem(isSymbol, line);
    if Strip(line) != [] {
      if item.Some? {
        DetectListItemShape(isSymbol, line, '\n');
        MarkdownNoBreak(item.value);
      } else {
        StripWithin(line, '\n');
      }
    }
  }

  lemma MarkdownNoBreak(item: ListItem)
    requires '\n' !in item.text
    ensures '\n' !in Markdown(item)
  {
    NotInConcat(if item.kind == Bullet then "- " else "1. ", item.text, '\n');
  }

  /** The formatted lines are the input lines formatted one by one, in order. */
  lemma {:induction false} FormatTextLinesSpec(isSymbol: char -> bool, lines: seq<string>, i: nat)
    requires i < |lines|
    ensures FormatTextLines(isSymbol, lines)[i] == FormatTextLine(isSymbol, lines[i])
    decreases |lines|
  {
    if i < |lines| - 1 {
      FormatTextLinesSpec(isSymbol, lines[..|lines| - 1], i);
    }
  }

  /** The formatted text has exactly as many lines as the input text. */
  lemma FormatTextKeepsLineCount(isSymbol: char -> bool, text: string)
    ensures var lines := SplitOn(text, '\n');
      SplitOn(Join(FormatTextLines(isSymbol, lines), "\n"), '\n') == FormatTextLines(isSymbol, lines)
  {
    var lines := SplitOn(text, '\n');
    var out := FormatTextLines(isSymbol, lines);
    forall k | 0 <= k < |out| ensures '\n' !in out[k] {
      FormatTextLinesSpec(isSymbol, lines, k);
      FormatTextLineNoBreak(isSymbol, lines[k]);
    }
    SplitOnJoin(out, '\n');
  }

  // ---------------------------------------------------------------------
  // PDF page text
  // ---------------------------------------------------------------------

  predicate IsUpperChar(c: char) { 'A' <= c <= 'Z' }
  predicate IsLowerChar(c: char) { 'a' <= c <= 'z' }

  /** `s.isupper()`: some cased character and no lowercase one. */
  predicate IsUpper(s: string)
  {
    (exists i :: 0 <= i < |s| && IsUpperChar(s[i])) && forall i :: 0 <= i < |s| ==> !IsLowerChar(s[i])
  }

  function UpperChar(c: char): char
  {
    if IsLowerChar(c) then (c as int - 32) as char else c
  }

  /** `s.title()` continued after a character that was cased or not. */
  function TitleFrom(s: string, afterCased: bool): (r: string)
    ensures |r| == |s|
    ensures Lower(r) == Lower(s)
    ensures r != [] && IsAsciiLetter(s[0]) ==> r[0] == (if afterCased then LowerChar(s[0]) else UpperChar(s[0]))
  {
    if s == [] then []
    else
      var c := s[0];
      var c' := if !IsAsciiLetter(c) then c else if afterCased then LowerChar(c) else UpperChar(c);
      var r := [c'] + TitleFrom(s[1..], IsAsciiLetter(c));
      LetterCase(c);
      LowerOfRecased(s, c', TitleFrom(s[1..], IsAsciiLetter(c)));
      r
  }

  /** Upper- and lowercasing a character keeps its lowercase form. */
  lemma LetterCase(c: char)
    ensures LowerChar(LowerChar(c)) == LowerChar(c) && LowerChar(UpperChar(c)) == LowerChar(c)
  {
  }

  /** Replacing the first character by one with the same lowercase form, and the rest likewise, keeps the lowercase form. */
  lemma LowerOfRecased(s: string, c: char, t: string)
    requires s != [] && LowerChar(c) == LowerChar(s[0]) && Lower(t) == Lower(s[1..])
    ensures Lower([c] + t) == Lower(s)
  {
    var l := Lower([c] + t);
    forall i | 0 <= i < |s| ensures l[i] == Lower(s)[i] {
      if i > 0 {
        assert ([c] + t)[i] == t[i - 1];
        assert Lower(t)[i - 1] == Lower(s[1..])[i - 1];
      }
    }
  }

  /** `s.title()`: every word starts with a capital and continues in lower case. */
  function Title(s: string): string
  {
    TitleFrom(s, false)
  }

  lemma {:induction false} TitleFromIdempotent(s: string, afterCased: bool)
    ensures TitleFrom(TitleFrom(s, afterCased), afterCased) == TitleFrom(s, afterCased)
    decreases |s|
  {
    if s != [] {
      var t := TitleFrom(s, afterCased);
      assert IsAsciiLetter(t[0]) == IsAsciiLetter(s[0]);
      assert t[1..] == TitleFrom(s[1..], IsAsciiLetter(s[0]));
      TitleFromIdempotent(s[1..], IsAsciiLetter(s[0]));
    }
  }

  /** Title-casing is idempotent and changes nothing but letter case. */
  lemma TitleSpec(s: string)
    ensures |Title(s)| == |s| && Lower(Title(s)) == Lower(s)
    ensures Title(Title(s)) == Title(s)
  {
    TitleFromIdempotent(s, false);
  }

  /** What one line of PDF text becomes: nothing when blank, else a heading, a list item or the stripped line. */
  function PdfLine(isSymbol: char -> bool, line: string): Option<string>
  {
    var s := Strip(line);
    if s == [] then None
    else if |s| < 80 && IsUpper(s) && |s| > 3 then Some("\n### " + Title(s))
    else match DetectListItem(isSymbol, line)
      case Some(item) => Some(Markdown(item))
      case None => Some(s)
  }

  function PageHeader(pageNum: nat): string
  {
    "## Page " + NatToString(pageNum)
  }

  function PdfLines(isSymbol: char -> bool, pageNum: nat, lines: seq<string>): seq<string>
  {
    [PageHeader(pageNum)] + FilterMap(lines, (line: string) => PdfLine(isSymbol, line))
  }

  /** `_format_pdf_text_as_markdown`. */
  method FormatPdfTextAsMarkdown(isSymbol: char -> bool, text: string, pageNum: nat) returns (r: string)
    ensures r == Join(PdfLines(isSymbol, pageNum, SplitOn(text, '\n')), "\n")
  {
    var lines := SplitOn(text, '\n');
    var pdfLine := (line: string) => PdfLine(isSymbol, line);
    var kept: seq<string> := [];
    var i := 0;
    while i < |lines|
      invariant 0 <= i <= |lines|
      invariant kept == FilterMap(lines[..i], pdfLine)
    {
      FilterMapStep(lines, pdfLine, i);
      var out := pdfLine(lines[i]);
      if out.Some? {
        kept := kept + [out.value];
      }
      i := i + 1;
    }
    WholePrefix(lines);
    r := Join([PageHeader(pageNum)] + kept, "\n");
  }

  /** How many of the lines are not blank. */
  function NonBlankCount(lines: seq<string>): nat
  {
    if lines == [] then 0 else NonBlankCount(lines[..|lines| - 1]) + (if AllSpace(lines[|lines| - 1]) then 0 else 1)
  }

  /**
   * The page header comes first, followed by one line per non-blank input
   * line and none for blank ones; short all-capital lines become headings.
   */
  lemma {:induction false} PdfLinesSpec(isSymbol: char -> bool, pageNum: nat, lines: seq<string>)
    ensures var out := PdfLines(isSymbol, pageNum, lines);
      && out[0] == "## Page " + NatToString(pageNum)
      && |out| == 1 + NonBlankCount(lines)
    ensures forall line :: PdfLine(isSymbol, line).None? <==> AllSpace(line)
    ensures forall line :: var s := Strip(line);
      s != [] && |s| < 80 && IsUpper(s) && |s| > 3 ==> PdfLine(isSymbol, line) == Some("\n### " + Title(s))
    decreases |lines|
  {
    forall line ensures PdfLine(isSymbol, line).None? <==> AllSpace(line) {
      StripEmptyIffAllSpace(line);
    }
    if lines != [] {
      PdfLinesSpec(isSymbol, pageNum, lines[..|lines| - 1]);
    }
  }

  // ---------------------------------------------------------------------
  // Tables
  // ---------------------------------------------------------------------

  /** A cell's text: stripped, with line breaks turned into spaces. */
  function CellText(cell: string): string
  {
    Replace(Strip(cell), "\n", " ")
  }

  function CellTexts(cells: seq<string>): (r: seq<string>)
    ensures |r| == |cells|
  {
    if cells == [] then [] else CellTexts(cells[..|cells| - 1]) + [CellText(cells[|cells| - 1])]
  }

  lemma {:induction false} CellTextsSpec(cells: seq<string>, i: nat)
    requires i < |cells|
    ensures CellTexts(cells)[i] == CellText(cells[i])
    decreases |cells|
  {
    if i < |cells| - 1 {
      CellTextsSpec(cells[..|cells| - 1], i);
    }
  }

  function RowLine(cells: seq<string>): string
  {
    "| " + Join(CellTexts(cells), " | ") + " |"
  }

  function Dashes(n: nat): (r: seq<string>)
    ensures |r| == n
  {
    if n == 0 then [] else Dashes(n - 1) + ["---"]
  }

  lemma {:induction false} DashesSpec(n: nat)
    ensures forall i :: 0 <= i < n ==> Dashes(n)[i] == "---"
  {
    if n > 0 {
      DashesSpec(n - 1);
    }
  }

  function SeparatorLine(n: nat): string
  {
    "| " + Join(Dashes(n), " | ") + " |"
  }

  /** One markdown line per row, in order. */
  function RowLines(rows: seq<seq<string>>): (r: seq<string>)
    ensures |r| == |rows|
  {
    if rows == [] then [] else RowLines(rows[..|rows| - 1]) + [RowLine(rows[|rows| - 1])]
  }

  /** The lines emitted for the rows: the first row, the separator, then the other rows. */
  function TableLines(rows: seq<seq<string>>): seq<string>
  {
    if rows == [] then []
    else [RowLine(rows[0]), SeparatorLine(|rows[0]|)] + RowLines(rows[1..])
  }

  /** `_format_table_as_markdown` over the cell texts of each row. */
  method FormatTableAsMarkdown(rows: seq<seq<string>>) returns (r: string)
    ensures r == Join(TableLines(rows), "\n")
  {
    if rows == [] {
      return "";
    }
    var lines: seq<string> := [];
    var i := 0;
    while i < |rows|
      invariant 0 <= i <= |rows|
      invariant lines == TableLines(rows[..i])
    {
      var row := rows[i];
      TableLinesStep(rows, i);
      lines := lines + [RowLine(row)];
      if i == 0 {
        lines := lines + [SeparatorLine(|row|)];
      }
      i := i + 1;
    }
    assert rows[..|rows|] == rows;
    r := Join(lines, "\n");
  }

  /** One more row adds its line, and the separator after the first. */
  lemma TableLinesStep(rows: seq<seq<string>>, i: nat)
    requires i < |rows|
    ensures i == 0 ==> TableLines(rows[..1]) == [RowLine(rows[0]), SeparatorLine(|rows[0]|)]
    ensures i > 0 ==> TableLines(rows[..i + 1]) == TableLines(rows[..i]) + [RowLine(rows[i])]
  {
    if i > 0 {
      PrefixStep(rows, i);
      RowLinesSnoc(rows[..i][1..], rows[i]);
      TableLinesUnfold(rows[..i + 1]);
      TableLinesUnfold(rows[..i]);
      ConcatAssoc([RowLine(rows[0]), SeparatorLine(|rows[0]|)], RowLines(rows[..i][1..]), [RowLine(rows[i])]);
    } else {
      assert rows[..1][1..] == [];
    }
  }

  lemma TableLinesUnfold(rows: seq<seq<string>>)
    requires rows != []
    ensures TableLines(rows) == [RowLine(rows[0]), SeparatorLine(|rows[0]|)] + RowLines(rows[1..])
  {
  }

  lemma PrefixStep<T>(s: seq<T>, i: nat)
    requires 1 <= i < |s|
    ensures s[..i + 1][1..] == s[..i][1..] + [s[i]] && s[..i + 1][0] == s[0] && s[..i][0] == s[0]
  {
    assert s[..i + 1][1..] == s[1..i + 1];
  }

  lemma RowLinesSnoc(rows: seq<seq<string>>, row: seq<string>)
    ensures RowLines(rows + [row]) == RowLines(rows) + [RowLine(row)]
  {
    assert (rows + [row])[..|rows|] == rows;
  }

  lemma {:induction false} RowLinesSpec(rows: seq<seq<string>>, i: nat)
    requires i < |rows|
    ensures RowLines(rows)[i] == RowLine(rows[i])
    decreases |rows|
  {
    if i < |rows| - 1 {
      RowLinesSpec(rows[..|rows| - 1], i);
    }
  }

  /**
   * For n rows there are n + 1 lines: the first row, a separator with one
   * `---` per cell of the first row, then the other rows in order.
   */
  lemma TableLinesSpec(rows: seq<seq<string>>, i: nat)
    requires 1 <= i < |rows|
    ensures var lines := TableLines(rows);
      && |lines| == |rows| + 1
      && lines[0] == RowLine(rows[0])
      && lines[1] == SeparatorLine(|rows[0]|)
      && lines[i + 1] == RowLine(rows[i])
  {
    TableLinesHead(rows);
    TableLineAt(rows, i);
  }

  lemma TableLinesHead(rows: seq<seq<string>>)
    requires rows != []
    ensures var lines := TableLines(rows);
      |lines| == |rows| + 1 && lines[0] == RowLine(rows[0]) && lines[1] == SeparatorLine(|rows[0]|)
  {
    TableLinesUnfold(rows);
  }

  lemma TableLineAt(rows: seq<seq<string>>, i: nat)
    requires 1 <= i < |rows|
    ensures |TableLines(rows)| == |rows| + 1 && TableLines(rows)[i + 1] == RowLine(rows[i])
  {
    TableLinesUnfold(rows);
    RowLinesSpec(rows[1..], i - 1);
  }

  /** A row line holds no line break, whatever its cells hold. */
  lemma RowLineNoBreak(cells: seq<string>)
    ensures '\n' !in RowLine(cells)
  {
    var texts := CellTexts(cells);
    forall j | 0 <= j < |texts| ensures '\n' !in texts[j] {
      CellTextsSpec(cells, j);
      ReplaceRemoves(Strip(cells[j]), '\n', " ");
    }
    JoinWithout(texts, " | ", '\n');
  }

  lemma SeparatorNoBreak(n: nat)
    ensures '\n' !in SeparatorLine(n)
  {
    DashesSpec(n);
    JoinWithout(Dashes(n), " | ", '\n');
  }

  /** No table line holds a line break, so the table text splits back into exactly those lines. */
  lemma TableLineCount(rows: seq<seq<string>>)
    requires rows != []
    ensures SplitOn(Join(TableLines(rows), "\n"), '\n') == TableLines(rows)
  {
    var lines := TableLines(rows);
    forall k | 0 <= k < |lines| ensures '\n' !in lines[k] {
      TableLineNoBreak(rows, k);
    }
    SplitOnJoin(lines, '\n');
  }

  lemma TableLineNoBreak(rows: seq<seq<string>>, k: nat)
    requires rows != [] && k <= |rows|
    ensures |TableLines(rows)| == |rows| + 1 && '\n' !in TableLines(rows)[k]
  {
    if k == 0 {
      HeaderNoBreak(rows);
    } else if k == 1 {
      SeparatorLineNoBreak(rows);
    } else {
      BodyLineNoBreak(rows, k - 1);
    }
  }

  lemma HeaderNoBreak(rows: seq<seq<string>>)
    requires rows != []
    ensures |TableLines(rows)| == |rows| + 1 && '\n' !in TableLines(rows)[0]
  {
    TableLinesHead(rows);
    RowLineNoBreak(rows[0]);
  }

  lemma SeparatorLineNoBreak(rows: seq<seq<string>>)
    requires rows != []
    ensures |TableLines(rows)| == |rows| + 1 && '\n' !in TableLines(rows)[1]
  {
    TableLinesHead(rows);
    SeparatorNoBreak(|rows[0]|);
  }

  lemma BodyLineNoBreak(rows: seq<seq<string>>, i: nat)
    requires 1 <= i < |rows|
    ensures |TableLines(rows)| == |rows| + 1 && '\n' !in TableLines(rows)[i + 1]
  {
    TableLineAt(rows, i);
    RowLineNoBreak(rows[i]);
  }
}
