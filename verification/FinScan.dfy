/** The scanning half of the MT103 parser: cutting the text block out of a FIN message and
    finding a tagged field in it, as the parser's regular expressions do, together with what
    that scan sees on a printed block. */
module FinScan {
  import opened Wrappers
  import opened Text
  import opened Numerals

  predicate IsLetter(c: char) {
    'A' <= c <= 'Z' || 'a' <= c <= 'z'
  }

  function UpperChar(c: char): char {
    if 'a' <= c <= 'z' then c - 32 as char else c
  }

  /** `s` begins with `:dd:` or `:ddX:`, the pattern at which a field value ends. */
  predicate TagAt(s: string) {
    && |s| >= 4 && s[0] == ':' && IsDigit(s[1]) && IsDigit(s[2])
    && (s[3] == ':' || (|s| >= 5 && IsLetter(s[3]) && s[4] == ':'))
  }

  /** `s` begins with `:tag:`, compared without regard to case. */
  predicate TagIs(s: string, tag: string) {
    && |s| >= |tag| + 2 && s[0] == ':' && s[|tag| + 1] == ':'
    && forall i :: 0 <= i < |tag| ==> UpperChar(s[i + 1]) == UpperChar(tag[i])
  }

  predicate OpenAt(s: string) {
    |s| >= 3 && s[0] == '{' && s[1] == '4' && s[2] == ':'
  }

  predicate CloseAt(s: string) {
    |s| >= 2 && s[0] == '-' && s[1] == '}'
  }

  /** What follows the first `{4:`. */
  function AfterOpen(s: string): Option<string> {
    if OpenAt(s) then Some(s[3..])
    else if s == "" then None
    else AfterOpen(s[1..])
  }

  /** What precedes the first `-}`. */
  function BeforeClose(s: string): Option<string> {
    if CloseAt(s) then Some("")
    else if s == "" then None
    else match BeforeClose(s[1..])
      case None => None
      case Some(b) => Some([s[0]] + b)
  }

  /** The text between the first `{4:` that has a `-}` after it and that `-}`; without one, all of `raw`. */
  function Body(raw: string): string {
    match AfterOpen(raw)
    case None => raw
    case Some(rest) =>
      match BeforeClose(rest)
      case None => raw
      case Some(body) => body
  }

  /** What follows the first `:tag:`. */
  function FindTag(s: string, tag: string): Option<string> {
    if TagIs(s, tag) then Some(s[|tag| + 2..])
    else if s == "" then None
    else FindTag(s[1..], tag)
  }

  /** The shortest prefix that ends before a tag, before `-}` or with the text. */
  function UntilTag(s: string): string {
    if s == "" || TagAt(s) || CloseAt(s) then "" else [s[0]] + UntilTag(s[1..])
  }

  /** `getField` */
  function GetField(body: string, tag: string): Option<string> {
    match FindTag(body, tag)
    case None => None
    case Some(rest) => Some(Trim(UntilTag(rest)))
  }

  function TrimmedLines(lines: seq<string>): seq<string> {
    if lines == [] then []
    else (if Trim(lines[0]) == "" then [] else [Trim(lines[0])]) + TrimmedLines(lines[1..])
  }

  /** The non-blank lines of a text, trimmed. */
  function LinesIn(text: string): seq<string> {
    TrimmedLines(Split(text, '\n'))
  }

  /** `getMultilineField` */
  function GetLines(body: string, tag: string): seq<string> {
    match GetField(body, tag)
    case None => []
    case Some(text) => if text == "" then [] else LinesIn(text)
  }

  // ---------- text that cannot be mistaken for block structure ----------

  ghost predicate NoTag(s: string) {
    forall i :: 0 <= i <= |s| ==> !TagAt(s[i..])
  }

  ghost predicate NoClose(s: string) {
    forall i :: 0 <= i < |s| - 1 ==> s[i] != '-' || s[i + 1] != '}'
  }

  /** A tag name of the block: two digits and possibly a capital. */
  predicate IsTagName(tag: string) {
    && 2 <= |tag| <= 3 && IsDigit(tag[0]) && IsDigit(tag[1])
    && (|tag| == 3 ==> 'A' <= tag[2] <= 'Z')
  }

  /** Field content whose own text neither continues the tag in front of it nor closes the block. */
  ghost predicate SafeContent(content: string) {
    NoTag(":" + content) && NoClose(content)
  }

  datatype Field = Field(tag: string, content: string)

  ghost predicate SafeField(f: Field) {
    IsTagName(f.tag) && SafeContent(f.content)
  }

  function Label(tag: string): string {
    ":" + tag + ":"
  }

  function FieldText(f: Field): string {
    Label(f.tag) + f.content
  }

  /** The fields one to a line, each line ended. */
  function Render(fields: seq<Field>): string {
    if fields == [] then "" else FieldText(fields[0]) + "\n" + Render(fields[1..])
  }

  /** The first field with this tag, if any. */
  function Lookup(fields: seq<Field>, tag: string): Option<string> {
    if fields == [] then None
    else if fields[0].tag == tag then Some(fields[0].content)
    else Lookup(fields[1..], tag)
  }

  // ---------- tags and closers do not straddle a line break ----------

  lemma TagAtLine(a: string, r: string)
    ensures TagAt(a + "\n" + r) == (a != "" && TagAt(a))
  {
    var s := a + "\n" + r;
    assert forall i :: 0 <= i < |a| ==> s[i] == a[i];
    assert s[|a|] == '\n';
  }

  lemma TagAtExtends(a: string, r: string)
    ensures TagAt(a) ==> TagAt(a + r)
  {
    assert forall i :: 0 <= i < |a| ==> (a + r)[i] == a[i];
  }

  lemma NoTagLines(a: string, b: string)
    requires NoTag(a) && NoTag(b)
    ensures NoTag(a + "\n" + b)
  {
    var s := a + "\n" + b;
    forall i | 0 <= i <= |s| ensures !TagAt(s[i..]) {
      if i <= |a| {
        assert s[i..] == a[i..] + "\n" + b;
        TagAtLine(a[i..], b);
      } else {
        assert s[i..] == b[i - |a| - 1..];
      }
    }
  }

  lemma NoTagTail(s: string, k: nat)
    requires NoTag(s) && k <= |s|
    ensures NoTag(s[k..])
  {
    forall i | 0 <= i <= |s| - k ensures !TagAt(s[k..][i..]) {
      assert s[k..][i..] == s[k + i..];
    }
  }

  lemma NoTagTake(s: string, k: nat)
    requires NoTag(s) && k <= |s|
    ensures NoTag(s[..k])
  {
    forall i | 0 <= i <= k ensures !TagAt(s[..k][i..]) {
      assert s[..k][i..] + s[k..] == s[i..];
      TagAtExtends(s[..k][i..], s[k..]);
    }
  }

  // ---------- what the scan sees ----------

  /** `UntilTag` runs through safe text to the line break that ends it and then on. */
  lemma {:induction false} UntilTagThrough(a: string, r: string)
    requires NoTag(a) && NoClose(a)
    ensures UntilTag(a + "\n" + r) == a + "\n" + UntilTag(r)
  {
    var s := a + "\n" + r;
    TagAtLine(a, r);
    if a == "" {
      assert s[0] == '\n' && s[1..] == r;
    } else {
      assert s[1..] == a[1..] + "\n" + r;
      assert a[0..] == a;
      assert s[1] == if |a| == 1 then '\n' else a[1];
      NoTagTail(a, 1);
      UntilTagThrough(a[1..], r);
      assert a == [a[0]] + a[1..];
    }
  }

  lemma TagIsTagAt(s: string, tag: string)
    requires IsTagName(tag)
    ensures TagIs(s, tag) ==> TagAt(s)
  {
    if TagIs(s, tag) {
      assert UpperChar(s[0 + 1]) == UpperChar(tag[0]) && UpperChar(s[1 + 1]) == UpperChar(tag[1]);
      if |tag| == 3 {
        assert UpperChar(s[2 + 1]) == UpperChar(tag[2]);
      }
    }
  }

  /** `FindTag` passes over tag-free text and its line break. */
  lemma {:induction false} FindTagThrough(a: string, r: string, tag: string)
    requires IsTagName(tag) && NoTag(a)
    ensures FindTag(a + "\n" + r, tag) == FindTag(r, tag)
  {
    var s := a + "\n" + r;
    TagIsTagAt(s, tag);
    TagAtLine(a, r);
    assert a[0..] == a;
    if a == "" {
      assert s[1..] == r;
    } else {
      assert s[1..] == a[1..] + "\n" + r;
      NoTagTail(a, 1);
      FindTagThrough(a[1..], r, tag);
    }
  }

  /** Two tag names that `TagIs` cannot tell apart at the head of a field are equal. */
  lemma TagNameDecides(name: string, content: string, tag: string)
    requires IsTagName(name) && IsTagName(tag)
    ensures TagIs(":" + name + ":" + content, tag) == (name == tag)
  {
    var s := ":" + name + ":" + content;
    var n := |name|;
    assert forall i :: 0 <= i < n ==> s[i + 1] == name[i];
    assert s[n + 1] == ':';
    if TagIs(s, tag) {
      assert UpperChar(s[0 + 1]) == UpperChar(tag[0]) && UpperChar(s[1 + 1]) == UpperChar(tag[1]);
      if |tag| == 3 {
        assert UpperChar(s[2 + 1]) == UpperChar(tag[2]);
        assert name[2] == tag[2];
      }
      assert name[0] == tag[0] && name[1] == tag[1];
    }
  }

  lemma NameHasNoColon(name: string)
    requires IsTagName(name)
    ensures forall i :: 0 <= i < |name| ==> name[i] != ':'
  {
    forall i | 0 <= i < |name| ensures name[i] != ':' {
      assert i == 0 || i == 1 || i == 2;
    }
  }

  lemma AfterName(name: string, content: string)
    requires forall i :: 0 <= i < |name| ==> name[i] != ':'
    ensures var s := ":" + name + ":" + content;
      && |s| > |name| + 1 && s[|name| + 2..] == content && s[|name| + 1..] == ":" + content
      && forall i :: 1 <= i <= |name| ==> s[i] != ':'
  {
    var s := ":" + name + ":" + content;
    forall i | 1 <= i <= |name| ensures s[i] != ':' {
      assert s[i] == name[i - 1];
    }
  }

  /** At the head of a field the scan either stops or goes on behind the name. */
  lemma FindTagAtHead(s: string, n: nat, content: string, tag: string, own: bool)
    requires IsTagName(tag) && |s| > n + 1 && TagIs(s, tag) == own && (own ==> n == |tag|)
    requires forall i :: 1 <= i <= n ==> s[i] != ':'
    requires s[n + 2..] == content && s[n + 1..] == ":" + content
    ensures FindTag(s, tag) == if own then Some(content) else FindTag(":" + content, tag)
  {
    if !own { SkipTagName(s, n, tag); }
  }

  /** At a field's head the scan stops for the field's own tag and goes on to its content for another. */
  lemma FindTagAtName(name: string, content: string, tag: string)
    requires IsTagName(name) && IsTagName(tag)
    ensures FindTag(":" + name + ":" + content, tag)
         == if name == tag then Some(content) else FindTag(":" + content, tag)
  {
    TagNameDecides(name, content, tag);
    NameHasNoColon(name);
    AfterName(name, content);
    FindTagAtHead(":" + name + ":" + content, |name|, content, tag, name == tag);
  }

  lemma FieldGrouping(name: string, content: string, r: string)
    ensures (":" + name + ":" + content) + "\n" + r == ":" + name + ":" + (content + "\n" + r)
    ensures ":" + (content + "\n" + r) == (":" + content) + "\n" + r
  {
  }

  /** A printed field is found by its own tag and by no other. */
  lemma FindTagAtField(f: Field, r: string, tag: string)
    requires SafeField(f) && IsTagName(tag)
    ensures FindTag(FieldText(f) + "\n" + r, tag)
         == if f.tag == tag then Some(f.content + "\n" + r) else FindTag(r, tag)
  {
    FieldGrouping(f.tag, f.content, r);
    FindTagAtName(f.tag, f.content + "\n" + r, tag);
    if f.tag != tag {
      FindTagThrough(":" + f.content, r, tag);
    }
  }

  /** Inside a tag name no tag starts. */
  lemma {:induction false} SkipTagName(s: string, n: nat, tag: string)
    requires |s| > n + 1 && IsTagName(tag) && !TagIs(s, tag)
    requires forall i :: 1 <= i <= n ==> s[i] != ':'
    ensures FindTag(s, tag) == FindTag(s[n + 1..], tag)
  {
    if n > 0 {
      assert s[1..][n..] == s[n + 1..];
      SkipTagName(s[1..], n - 1, tag);
    }
  }

  lemma TagAtField(f: Field, r: string)
    requires IsTagName(f.tag)
    ensures TagAt(FieldText(f) + "\n" + r)
  {
    FieldGrouping(f.tag, f.content, r);
    TagAtFieldText(f.tag, f.content + "\n" + r);
  }

  lemma UntilTagAtRender(fields: seq<Field>)
    requires forall i :: 0 <= i < |fields| ==> SafeField(fields[i])
    ensures UntilTag(Render(fields)) == ""
  {
    if fields != [] {
      assert SafeField(fields[0]);
      TagAtField(fields[0], Render(fields[1..]));
    }
  }

  lemma TagAtFieldText(name: string, r: string)
    requires IsTagName(name)
    ensures TagAt(":" + name + ":" + r)
  {
    var s := ":" + name + ":" + r;
    assert s[1] == name[0] && s[2] == name[1] && s[|name| + 1] == ':';
    assert |name| == 3 ==> s[3] == name[2];
  }

  /** On a printed block, `getField` is lookup by tag, trimmed. */
  lemma {:induction false} GetFieldOfRender(fields: seq<Field>, tag: string)
    requires IsTagName(tag)
    requires forall i :: 0 <= i < |fields| ==> SafeField(fields[i])
    ensures GetField(Render(fields), tag)
         == match Lookup(fields, tag) { case None => None case Some(c) => Some(Trim(c + "\n")) }
  {
    if fields != [] {
      var f, rest := fields[0], fields[1..];
      assert SafeField(f);
      FindTagAtField(f, Render(rest), tag);
      if f.tag == tag {
        UntilTagAtRender(rest);
        assert (":" + f.content)[1..] == f.content;
        NoTagTail(":" + f.content, 1);
        UntilTagThrough(f.content, Render(rest));
        assert f.content + "\n" + "" == f.content + "\n";
      } else {
        GetFieldOfRender(rest, tag);
      }
    }
  }

  lemma NoCloseField(f: Field, r: string)
    requires SafeField(f) && NoClose(r)
    ensures NoClose(FieldText(f) + "\n" + r)
  {
    var t := FieldText(f);
    var n := |f.tag|;
    assert forall i :: 1 <= i <= n ==> t[i] == f.tag[i - 1];
    assert t[n + 2..] == f.content;
  }

  lemma {:induction false} NoCloseRender(fields: seq<Field>)
    requires forall i :: 0 <= i < |fields| ==> SafeField(fields[i])
    ensures NoClose(Render(fields))
  {
    if fields != [] {
      assert SafeField(fields[0]);
      NoCloseRender(fields[1..]);
      NoCloseField(fields[0], Render(fields[1..]));
    }
  }

  // ---------- the text block ----------

  lemma {:induction false} BeforeFirstClose(a: string, r: string)
    requires NoClose(a) && (a != "" ==> a[|a| - 1] != '-')
    ensures BeforeClose(a + "-}" + r) == Some(a)
  {
    var s := a + "-}" + r;
    if a != "" {
      assert s[1..] == a[1..] + "-}" + r;
      assert s[0] == a[0] && s[1] == if |a| == 1 then '-' else a[1];
      BeforeFirstClose(a[1..], r);
      assert a == [a[0]] + a[1..];
    }
  }

  lemma {:induction false} AfterOpenSkips(head: string, r: string)
    requires forall i :: 0 <= i < |head| && head[i] == '{' ==> i + 1 < |head| && head[i + 1] != '4'
    ensures AfterOpen(head + r) == AfterOpen(r)
  {
    var s := head + r;
    if head == "" {
      assert s == r;
    } else {
      assert s[1..] == head[1..] + r;
      assert head[0] == '{' ==> s[1] == head[1];
      AfterOpenSkips(head[1..], r);
    }
  }
}
