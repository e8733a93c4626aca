/** The build step that defers stylesheets: every `<link rel="stylesheet">` tag gets a print media query and a mark. */
module Stylesheets {
  import opened Options

  const LINK: string := "<link"
  const REL: string := "rel=\"stylesheet\""
  const MARK: string := "data-deferred-css"
  const MEDIA: string := "media="
  const INSERTED: string := " media=\"print\" data-deferred-css"

  // ---------------------------------------------------------------------------------------------- strings

  predicate At(s: string, i: nat, p: string) {
    i + |p| <= |s| && s[i..i + |p|] == p
  }

  /** The first place from `from` on where `p` stands. */
  function Find(s: string, p: string, from: nat): (place: Option<nat>)
    requires p != ""
    ensures place.Some? ==> from <= place.value && At(s, place.value, p)
    ensures forall j :: from <= j && (place.Some? ==> j < place.value) ==> !At(s, j, p)
    decreases |s| - from
  {
    if from >= |s| then None
    else if At(s, from, p) then Some(from)
    else Find(s, p, from + 1)
  }

  /** What JavaScript's `\\s` and `trimEnd` take for white space. */
  predicate White(c: char) {
    var n := c as int;
    || 9 <= n <= 13 || n == 32 || n == 160 || n == 0x1680 || 0x2000 <= n <= 0x200A || n == 0x2028 || n == 0x2029
       || n == 0x202F
    || n == 0x205F || n == 0x3000 || n == 0xFEFF
  }

  predicate Word(c: char) {
    'A' <= c <= 'Z' || 'a' <= c <= 'z' || '0' <= c <= '9' || c == '_'
  }

  predicate WordBefore(s: string, i: nat)
    requires i <= |s|
  {
    i > 0 && Word(s[i - 1])
  }

  /** `\\b` and `p`, for a `p` that begins with a word character. */
  predicate Begins(s: string, i: nat, p: string) {
    At(s, i, p) && !WordBefore(s, i)
  }

  function TrimEnd(s: string): (t: string)
    ensures t <= s && (t == "" || !White(t[|t| - 1])) && forall i :: |t| <= i < |s| ==> White(s[i])
  {
    if s != "" && White(s[|s| - 1]) then TrimEnd(s[..|s| - 1]) else s
  }

  // ---------------------------------------------------------------------------------------------- one tag

  /** `isStylesheetLink`. */
  predicate IsStylesheetLink(tag: string) {
    && LINK < tag && White(tag[|LINK|])
    && exists i :: 0 <= i < |tag| && Begins(tag, i, REL)
  }

  predicate IsMarked(tag: string) {
    exists i :: 0 <= i < |tag| && Begins(tag, i, MARK) && (i + |MARK| == |tag| || !Word(tag[i + |MARK|]))
  }

  predicate HasMedia(tag: string) {
    exists i :: 0 <= i < |tag| && Begins(tag, i, MEDIA)
  }

  predicate SelfClosing(tag: string) {
    |tag| >= 2 && tag[|tag| - 2..] == "/>"
  }

  /** A tag without its end and the white space before it. */
  function OpenPart(tag: string): string
    requires tag != ""
  {
    TrimEnd(tag[..|tag| - if SelfClosing(tag) then 2 else 1])
  }

  /** `deferred`. */
  function Deferred(tag: string): string
    requires tag != ""
  {
    if IsMarked(tag) || HasMedia(tag) then tag
    else OpenPart(tag) + INSERTED + if SelfClosing(tag) then " />" else ">"
  }

  /** What becomes of a `<link ...>` tag. */
  function Fixed(tag: string): string
    requires tag != ""
  {
    if IsStylesheetLink(tag) then Deferred(tag) else tag
  }

  // ---------------------------------------------------------------------------------------------- the page

  /** Text, a tag and what follows, put together. */
  function Splice(text: string, tag: string, rest: string): string {
    text + tag + rest
  }

  /** The page from `cursor` on, with its tags fixed. */
  function DeferFrom(html: string, cursor: nat): string
    requires cursor <= |html|
    decreases |html| - cursor
  {
    var at := Find(html, LINK, cursor);
    if at.None? then html[cursor..]
    else
      var close := Find(html, ">", at.value);
      if close.None? then html[cursor..]
      else Splice(html[cursor..at.value], Fixed(html[at.value..close.value + 1]), DeferFrom(html, close.value + 1))
  }

  function Defer(html: string): string {
    DeferFrom(html, 0)
  }

  lemma Regroup(a: string, b: string, c: string, d: string, e: string)
    ensures a + b + (c + d + e) == a + (b + c) + d + e
  {
  }

  /** The letter a pattern begins with. */
  lemma FirstLetter(s: string, i: nat, p: string)
    requires p != "" && At(s, i, p)
    ensures i < |s| && s[i] == p[0]
  {
    assert s[i..i + |p|][0] == s[i];
  }

  lemma TagBounds(html: string, scanned: nat, at: nat, close: nat)
    requires Find(html, LINK, scanned) == Some(at) && Find(html, ">", at) == Some(close)
    ensures scanned <= at < close < |html|
  {
    hide At;
    FirstLetter(html, at, LINK);
    FirstLetter(html, close, ">");
  }

  lemma UnfoldSpliced(html: string, scanned: nat, at: nat, close: nat)
    requires scanned <= at < close < |html| && Find(html, LINK, scanned) == Some(at)
             && Find(html, ">", at) == Some(close)
    ensures DeferFrom(html, scanned) == Splice(html[scanned..at], Fixed(html[at..close + 1]),
                                               DeferFrom(html, close + 1))
  {
    hide Splice, Fixed, At;
  }

  lemma Unfold(html: string, scanned: nat, at: nat, close: nat)
    requires scanned <= |html| && Find(html, LINK, scanned) == Some(at) && Find(html, ">", at) == Some(close)
    ensures scanned <= at < close < |html|
    ensures DeferFrom(html, scanned) == html[scanned..at] + Fixed(html[at..close + 1]) + DeferFrom(html, close + 1)
  {
    hide Find, At, Fixed, DeferFrom;
    TagBounds(html, scanned, at, close);
    UnfoldSpliced(html, scanned, at, close);
  }

  lemma Slices(html: string, a: nat, b: nat, c: nat)
    requires a <= b <= c <= |html|
    ensures html[a..b] + html[b..c] == html[a..c]
  {
  }

  /** One tag further: what is copied, the tag, and the rest. */
  lemma DeferStep(html: string, out: string, cursor: nat, scanned: nat, at: nat, close: nat)
    requires cursor <= scanned <= |html| && Find(html, LINK, scanned) == Some(at) && Find(html, ">", at) == Some(close)
    ensures at < close < |html|
    ensures out + html[cursor..scanned] + DeferFrom(html, scanned)
            == out + html[cursor..at] + Fixed(html[at..close + 1]) + DeferFrom(html, close + 1)
  {
    Unfold(html, scanned, at, close);
    Slices(html, cursor, scanned, at);
    hide *;
    Regroup(out, html[cursor..scanned], html[scanned..at], Fixed(html[at..close + 1]), DeferFrom(html, close + 1));
  }

  lemma Nothing(s: string, html: string, i: nat)
    requires i <= |html|
    ensures s + html[i..i] == s
  {
  }

  lemma Assoc(a: string, b: string, c: string)
    ensures a + b + c == a + (b + c)
  {
  }

  /** `deferStylesheets`: a scan that copies what lies between the tags it changes. */
  method DeferStylesheets(html: string) returns (result: string)
    ensures result == Defer(html)
  {
    hide Find, DeferFrom, Defer, Fixed, IsStylesheetLink, Deferred;
    var out := "";
    var cursor: nat, scanned: nat := 0, 0;
    var at := Find(html, LINK, 0);
    StartOf(html);
    while at.Some?
      invariant cursor <= scanned <= |html| && at == Find(html, LINK, scanned)
      invariant out + html[cursor..scanned] + DeferFrom(html, scanned) == Defer(html)
      decreases |html| - scanned
    {
      var close := Find(html, ">", at.value);
      if close.None? { break; }
      DeferStep(html, out, cursor, scanned, at.value, close.value);
      Unfold(html, scanned, at.value, close.value);
      var tag := html[at.value..close.value + 1];
      FixedTag(tag);
      if IsStylesheetLink(tag) {
        out := out + html[cursor..at.value] + Deferred(tag);
        cursor := close.value + 1;
        Nothing(out, html, cursor);
      } else {
        Assoc(out, html[cursor..at.value], tag);
        Slices(html, cursor, at.value, close.value + 1);
      }
      scanned := close.value + 1;
      at := Find(html, LINK, scanned);
    }
    NoTag(html, scanned);
    Assoc(out, html[cursor..scanned], html[scanned..]);
    Slices(html, cursor, scanned, |html|);
    assert html[cursor..] == html[cursor..|html|] && html[scanned..] == html[scanned..|html|];
    result := out + html[cursor..];
  }

  lemma StartOf(html: string)
    ensures "" + html[0..0] + DeferFrom(html, 0) == Defer(html)
  {
  }

  lemma NoTag(html: string, scanned: nat)
    requires scanned <= |html|
    requires Find(html, LINK, scanned).None? || Find(html, ">", Find(html, LINK, scanned).value).None?
    ensures DeferFrom(html, scanned) == html[scanned..]
  {
  }

  lemma FixedTag(tag: string)
    requires tag != ""
    ensures Fixed(tag) == if IsStylesheetLink(tag) then Deferred(tag) else tag
  {
  }

  // ---------------------------------------------------------------------------------------------- link tags

  /** A whole tag, `<link` to the first `>`. */
  predicate IsTag(tag: string) {
    LINK < tag && tag[|tag| - 1] == '>' && forall i :: 0 <= i < |tag| - 1 ==> tag[i] != '>'
  }

  /** No `<link` begins in `text`, whatever `<link` follows it. */
  predicate NoLink(text: string) {
    forall j :: 0 <= j < |text| ==> !At(text + LINK, j, LINK)
  }

  /** Where a pattern stands does not depend on what is cut off or put in front or behind. */
  lemma AtPart(s: string, i: nat, j: nat, k: nat, p: string)
    requires i <= k <= |s| && j + |p| <= k - i
    ensures At(s[i..k], j, p) <==> At(s, i + j, p)
  {
    var a, b := s[i..k][j..j + |p|], s[i + j..i + j + |p|];
    forall m | 0 <= m < |p| ensures a[m] == b[m] { assert s[i..k][j + m] == s[i + j + m]; }
    assert a == b;
  }

  /** What an end of the tag is cut off at. */
  lemma OpenPartFacts(tag: string)
    requires IsTag(tag)
    ensures OpenPart(tag) <= tag && forall i :: 0 <= i < |OpenPart(tag)| ==> OpenPart(tag)[i] == tag[i] && tag[i] != '>'
    ensures forall i :: |OpenPart(tag)| <= i < |tag| - (if SelfClosing(tag) then 2 else 1) ==> White(tag[i])
    ensures |OpenPart(tag)| <= |tag| - (if SelfClosing(tag) then 2 else 1)
  {
  }

  /** The rel attribute ends before the part that is cut off. */
  lemma RelIsInOpenPart(tag: string, i: nat)
    requires IsTag(tag) && i < |tag| && Begins(tag, i, REL)
    ensures i + |REL| <= |OpenPart(tag)| && Begins(OpenPart(tag), i, REL)
  {
    OpenPartFacts(tag);
    var last := i + |REL| - 1;
    assert tag[i..i + |REL|][|REL| - 1] == REL[|REL| - 1] == '"';
    assert tag[last] == '"';
    if SelfClosing(tag) { assert tag[|tag| - 2] == tag[|tag| - 2..][0] == '/'; }
    assert last < |OpenPart(tag)|;
    assert OpenPart(tag) == tag[..|OpenPart(tag)|];
    AtPart(tag, 0, i, |OpenPart(tag)|, REL);
  }

  lemma InsertedLetters()
    ensures |INSERTED| == 32 && (forall i :: 0 <= i < |INSERTED| ==> INSERTED[i] != '>')
    ensures INSERTED[14] == ' ' && INSERTED[15..] == MARK
  {
  }

  function Ending(tag: string): string {
    if SelfClosing(tag) then " />" else ">"
  }

  lemma ThreeParts(a: string, b: string, c: string)
    ensures var d := a + b + c;
            && |d| == |a| + |b| + |c| && d[..|a|] == a && d[|a|..|a| + |b|] == b && d[|a| + |b|..] == c
  {
  }

  lemma LetterOf(a: string, b: string, c: string, i: nat)
    requires i < |a| + |b| + |c|
    ensures (a + b + c)[i] == if i < |a| then a[i] else if i < |a| + |b| then b[i - |a|] else c[i - |a| - |b|]
  {
  }

  lemma DeferredIs(tag: string)
    requires IsTag(tag) && !IsMarked(tag) && !HasMedia(tag)
    ensures Deferred(tag) == OpenPart(tag) + INSERTED + Ending(tag)
    ensures forall i :: 0 <= i < |OpenPart(tag)| ==> OpenPart(tag)[i] != '>'
  {
    OpenPartFacts(tag);
    hide OpenPart, IsMarked, HasMedia;
  }

  lemma NoEndBefore(open: string, inserted: string, ending: string)
    requires (forall i :: 0 <= i < |open| ==> open[i] != '>')
             && (forall i :: 0 <= i < |inserted| ==> inserted[i] != '>')
    requires ending == ">" || ending == " />"
    ensures var d := open + inserted + ending;
            && d != "" && d[|d| - 1] == '>' && forall i :: 0 <= i < |d| - 1 ==> d[i] != '>'
  {
    var d := open + inserted + ending;
    LetterOf(open, inserted, ending, |d| - 1);
    forall i | 0 <= i < |d| - 1 ensures d[i] != '>' { LetterOf(open, inserted, ending, i); }
  }

  /** The letters of a tag that is changed: those of its open part, the attributes, the end. */
  lemma DeferredLetters(tag: string)
    requires IsTag(tag) && !IsMarked(tag) && !HasMedia(tag)
    ensures var open, d := OpenPart(tag), Deferred(tag);
            && |d| == |open| + |INSERTED| + |Ending(tag)| && d[..|open|] == open
            && d[|open|..|open| + |INSERTED|] == INSERTED && d[|open| + |INSERTED|..] == Ending(tag)
            && d[|d| - 1] == '>' && forall i :: 0 <= i < |d| - 1 ==> d[i] != '>'
  {
    DeferredIs(tag);
    InsertedLetters();
    var open, inserted, ending := OpenPart(tag), INSERTED, Ending(tag);
    assert ending == ">" || ending == " />";
    hide OpenPart, IsMarked, HasMedia, IsTag, Deferred, Ending;
    ThreeParts(open, inserted, ending);
    NoEndBefore(open, inserted, ending);
  }

  lemma DeferredIsTag(tag: string)
    requires IsTag(tag) && IsStylesheetLink(tag)
    ensures IsTag(Deferred(tag)) && IsStylesheetLink(Deferred(tag))
  {
    if !IsMarked(tag) && !HasMedia(tag) {
      var i :| 0 <= i < |tag| && Begins(tag, i, REL);
      RelIsAfterLink(tag, i);
      RelIsInOpenPart(tag, i);
      OpenPartFacts(tag);
      DeferredLetters(tag);
      hide OpenPart, Deferred, IsMarked, HasMedia, White, Ending;
      SameBeginning(tag, OpenPart(tag), Deferred(tag), i);
    }
  }

  /** A tag with the same beginning up to the rel attribute is a stylesheet link as well. */
  lemma SameBeginning(tag: string, open: string, d: string, i: nat)
    requires LINK < tag && White(tag[|LINK|]) && open <= tag && open <= d && |LINK| < i && i + |REL| <= |open|
    requires Begins(open, i, REL)
    ensures IsStylesheetLink(d) && LINK < d
  {
    hide White;
    assert d[..|open|] == open;
    AtPart(d, 0, i, |open|, REL);
    assert Begins(d, i, REL);
    assert d[..|LINK|] == open[..|LINK|] == tag[..|LINK|];
    assert d[|LINK|] == open[|LINK|] == tag[|LINK|];
  }

  /** The rel attribute cannot overlap `<link` and the white space after it. */
  lemma RelIsAfterLink(tag: string, i: nat)
    requires LINK < tag && White(tag[|LINK|]) && At(tag, i, REL)
    ensures i > |LINK|
  {
    assert tag[i] == tag[i..i + |REL|][0] == 'r';
    assert tag[..|LINK|] == LINK;
    assert forall k :: 0 <= k < |LINK| ==> tag[k] == LINK[k];
  }

  lemma DeferredIsMarked(tag: string)
    requires IsTag(tag) && !IsMarked(tag) && !HasMedia(tag)
    ensures IsMarked(Deferred(tag))
  {
    DeferredLetters(tag);
    InsertedLetters();
    var open, d, inserted := OpenPart(tag), Deferred(tag), INSERTED;
    hide OpenPart, Deferred, HasMedia;
    var i := |open| + 15;
    assert d[|open|..|open| + 32][15..] == d[i..i + |MARK|];
    assert d[|open|..|open| + 32][14] == d[i - 1];
    assert d[|open| + 32..][0] == d[i + |MARK|];
    assert Begins(d, i, MARK);
  }

  /** A tag that was fixed is a tag still, and fixing it again changes nothing. */
  lemma FixedTwice(tag: string)
    requires IsTag(tag)
    ensures IsTag(Fixed(tag)) && Fixed(Fixed(tag)) == Fixed(tag)
  {
    if IsStylesheetLink(tag) {
      DeferredIsTag(tag);
      if !IsMarked(tag) && !HasMedia(tag) { DeferredIsMarked(tag); }
      hide IsStylesheetLink, IsMarked, HasMedia, OpenPart;
    }
  }

  // ---------------------------------------------------------------------------------------------- the scan

  /** The first place is the one where the pattern stands and before which it does not. */
  lemma FindIs(s: string, p: string, from: nat, place: nat)
    requires p != "" && from <= place && At(s, place, p) && forall j :: from <= j < place ==> !At(s, j, p)
    ensures Find(s, p, from) == Some(place)
  {
    hide At;
  }

  lemma FindShift(s: string, p: string, from: nat, cut: nat)
    requires p != "" && cut <= from && cut <= |s|
    ensures var there := Find(s, p, from); var here := Find(s[cut..], p, from - cut);
            (there.Some? <==> here.Some?) && (there.Some? ==> there.value == here.value + cut)
  {
    var there, here := Find(s, p, from), Find(s[cut..], p, from - cut);
    assert s[cut..] == s[cut..|s|];
    if here.Some? {
      AtPart(s, cut, here.value, |s|, p);
      forall j | from <= j < here.value + cut ensures !At(s, j, p) {
        if j + |p| <= |s| { AtPart(s, cut, j - cut, |s|, p); }
      }
      FindIs(s, p, from, here.value + cut);
    } else if there.Some? {
      AtPart(s, cut, there.value - cut, |s|, p);
      assert false;
    }
  }

  lemma SliceOfTail(s: string, cut: nat, a: nat, b: nat)
    requires cut <= a <= b <= |s|
    ensures s[cut..][a - cut..b - cut] == s[a..b] && s[cut..][a - cut..] == s[a..]
  {
  }

  lemma DeferIs(html: string)
    ensures Defer(html) == DeferFrom(html, 0)
  {
  }

  lemma UnfoldTail(tail: string, at: nat, close: nat, text: string, tag: string)
    requires Find(tail, LINK, 0) == Some(at) && Find(tail, ">", at) == Some(close)
    requires at <= close < |tail| && tail[0..at] == text && tail[at..close + 1] == tag && tag != ""
    ensures Defer(tail) == text + Fixed(tag) + DeferFrom(tail, close + 1)
  {
    hide Find, Fixed, DeferFrom, Defer, At;
    DeferIs(tail);
    Unfold(tail, 0, at, close);
  }

  /** The first tag from `cursor` on is the first tag of the tail. */
  lemma TailTag(html: string, cursor: nat, at: nat, close: nat)
    requires cursor <= |html| && Find(html, LINK, cursor) == Some(at) && Find(html, ">", at) == Some(close)
    ensures cursor <= at < close < |html|
    ensures Defer(html[cursor..])
            == html[cursor..at] + Fixed(html[at..close + 1]) + DeferFrom(html[cursor..], close + 1 - cursor)
  {
    hide DeferFrom, Defer, Find, Fixed, At;
    Unfold(html, cursor, at, close);
    FindShift(html, LINK, cursor, cursor);
    FindShift(html, ">", at, cursor);
    SliceOfTail(html, cursor, cursor, at);
    SliceOfTail(html, cursor, at, close + 1);
    var tail, text, tag := html[cursor..], html[cursor..at], html[at..close + 1];
    UnfoldTail(tail, at - cursor, close - cursor, text, tag);
  }

  lemma TailNoTag(html: string, cursor: nat)
    requires cursor <= |html|
    requires Find(html, LINK, cursor).None? || Find(html, ">", Find(html, LINK, cursor).value).None?
    ensures DeferFrom(html, cursor) == Defer(html[cursor..])
  {
    NoTag(html, cursor);
    FindShift(html, LINK, cursor, cursor);
    if Find(html, LINK, cursor).Some? { FindShift(html, ">", Find(html, LINK, cursor).value, cursor); }
    hide Find;
    NoTag(html[cursor..], 0);
  }

  /** What a tail of the page becomes does not depend on what comes before it. */
  lemma {:induction false} DeferShift(html: string, cursor: nat)
    requires cursor <= |html|
    ensures DeferFrom(html, cursor) == Defer(html[cursor..])
    decreases |html| - cursor
  {
    hide Find, Fixed, DeferFrom, Defer, At;
    var at := Find(html, LINK, cursor);
    if at.None? || Find(html, ">", at.value).None? {
      TailNoTag(html, cursor);
    } else {
      var close := Find(html, ">", at.value).value;
      Unfold(html, cursor, at.value, close);
      TailTag(html, cursor, at.value, close);
      SliceOfTail(html, cursor, close + 1, close + 1);
      DeferShift(html, close + 1);
      DeferShift(html[cursor..], close + 1 - cursor);
    }
  }

  lemma PartsOf(text: string, tag: string, rest: string)
    ensures var s := text + tag + rest;
            s[0..|text|] == text && s[|text|..|text| + |tag|] == tag && s[|text| + |tag|..] == rest
  {
  }

  /** A page that begins with text without `<link` and a tag: the text stays, the tag is fixed, the rest follows. */
  lemma DeferOf(text: string, tag: string, rest: string)
    requires NoLink(text) && IsTag(tag)
    ensures Defer(text + tag + rest) == text + Fixed(tag) + Defer(rest)
  {
    hide Find, NoLink, DeferFrom, Defer, Fixed, At;
    FirstLinkOf(text, tag, rest);
    FirstEndOf(text, tag, rest);
    hide IsTag;
    var s := text + tag + rest;
    var close := |text| + |tag| - 1;
    PartsOf(text, tag, rest);
    DeferShift(s, close + 1);
    UnfoldTail(s, |text|, close, text, tag);
  }

  lemma FirstLinkOf(text: string, tag: string, rest: string)
    requires NoLink(text) && IsTag(tag)
    ensures Find(text + tag + rest, LINK, 0) == Some(|text|)
  {
    var s := text + tag + rest;
    assert s[|text|..|text| + |LINK|] == tag[..|LINK|] == LINK;
    assert s[..|text| + |LINK|] == text + LINK;
    forall j | 0 <= j < |text| ensures !At(s, j, LINK) { AtPart(s, 0, j, |text| + |LINK|, LINK); }
    FindIs(s, LINK, 0, |text|);
  }

  lemma FirstEndOf(text: string, tag: string, rest: string)
    requires IsTag(tag)
    ensures Find(text + tag + rest, ">", |text|) == Some(|text| + |tag| - 1)
  {
    var s := text + tag + rest;
    var close := |text| + |tag| - 1;
    forall j | |text| <= j < close ensures !At(s, j, ">") {
      assert s[j] == tag[j - |text|];
      assert s[j..j + 1] == [s[j]];
    }
    assert s[close] == tag[|tag| - 1] && s[close..close + 1] == [s[close]];
    FindIs(s, ">", |text|, close);
  }

  lemma LinkLetters(html: string, at: nat)
    requires At(html, at, LINK)
    ensures forall k :: 0 <= k < |LINK| ==> html[at + k] == LINK[k]
  {
    var link := html[at..at + |LINK|];
    forall k | 0 <= k < |LINK| ensures html[at + k] == LINK[k] { assert link[k] == html[at + k]; }
  }

  lemma OneLetter(html: string, i: nat)
    requires i < |html|
    ensures At(html, i, ">") <==> html[i] == '>'
  {
    assert html[i..i + 1] == [html[i]];
  }

  lemma FirstTagIsTag(html: string, at: nat, close: nat)
    requires At(html, at, LINK) && at < close < |html| && html[close] == '>'
    requires forall k :: at <= k < close ==> html[k] != '>'
    ensures IsTag(html[at..close + 1])
  {
    LinkLetters(html, at);
    var tag := html[at..close + 1];
    assert close >= at + |LINK|;
    assert tag[..|LINK|] == html[at..at + |LINK|];
    assert forall i :: 0 <= i < |tag| ==> tag[i] == html[at + i];
  }

  lemma UpTo(html: string, at: nat)
    requires At(html, at, LINK)
    ensures html[..at + |LINK|] == html[..at] + LINK
  {
  }

  lemma TextBeforeHasNoLink(html: string, at: nat)
    requires Find(html, LINK, 0) == Some(at)
    ensures at <= |html| && NoLink(html[..at])
  {
    UpTo(html, at);
    var text := html[..at];
    assert html[0..at + |LINK|] == text + LINK;
    forall j | 0 <= j < |text| ensures !At(text + LINK, j, LINK) { NotBefore(html, at, j); }
  }

  lemma NotBefore(html: string, at: nat, j: nat)
    requires Find(html, LINK, 0) == Some(at) && j < at
    ensures at <= |html| && !At(html[..at] + LINK, j, LINK)
  {
    UpTo(html, at);
    AtPart(html, 0, j, at + |LINK|, LINK);
    assert html[0..at + |LINK|] == html[..at] + LINK;
    hide At;
  }

  lemma ThreeSlices(s: string, a: nat, b: nat)
    requires a <= b <= |s|
    ensures s == s[..a] + s[a..b] + s[b..]
  {
  }

  /** Every page with a whole `<link ...>` tag is of that form. */
  lemma FirstTag(html: string, at: nat, close: nat)
    requires Find(html, LINK, 0) == Some(at) && Find(html, ">", at) == Some(close)
    ensures at < close < |html|
    ensures NoLink(html[..at]) && IsTag(html[at..close + 1])
            && html == html[..at] + html[at..close + 1] + html[close + 1..]
  {
    Unfold(html, 0, at, close);
    TextBeforeHasNoLink(html, at);
    OneLetter(html, close);
    forall k | at <= k < close ensures html[k] != '>' { OneLetter(html, k); }
    hide NoLink, IsTag, Find, DeferFrom, Fixed, At;
    FirstTagIsTag(html, at, close);
    ThreeSlices(html, at, close + 1);
  }

  // ---------------------------------------------------------------------------------------------- the theorems

  /** For every page: deferring twice is deferring once. */
  lemma {:induction false} DeferTwice(html: string)
    ensures Defer(Defer(html)) == Defer(html)
    decreases |html|
  {
    var at := Find(html, LINK, 0);
    if at.None? || Find(html, ">", at.value).None? {
      NoTag(html, 0);
    } else {
      var close := Find(html, ">", at.value).value;
      FirstTag(html, at.value, close);
      var text, tag, rest := html[..at.value], html[at.value..close + 1], html[close + 1..];
      hide Defer, DeferFrom, Find, NoLink, IsTag, Fixed;
      DeferTwice(rest);
      FixedTwice(tag);
      DeferOf(text, tag, rest);
      DeferOf(text, Fixed(tag), Defer(rest));
    }
  }

  /** A page taken apart: text, and whole `<link ...>` tags. */
  datatype Piece = Text(text: string) | Tag(tag: string)

  function Pieces(html: string): seq<Piece>
    decreases |html|
  {
    var at := Find(html, LINK, 0);
    if at.None? then [Text(html)]
    else
      var close := Find(html, ">", at.value);
      if close.None? then [Text(html)]
      else [Text(html[..at.value]), Tag(html[at.value..close.value + 1])] + Pieces(html[close.value + 1..])
  }

  function Joined(pieces: seq<Piece>): string {
    if pieces == [] then "" else (if pieces[0].Text? then pieces[0].text else pieces[0].tag) + Joined(pieces[1..])
  }

  /** The page with every stylesheet tag deferred, and nothing else changed. */
  function Mended(pieces: seq<Piece>): string {
    if pieces == [] then ""
    else (if pieces[0].Text? then pieces[0].text else if pieces[0].tag == "" then ""
          else Fixed(pieces[0].tag)) + Mended(pieces[1..])
  }

  predicate PieceOk(p: Piece) {
    p.Tag? ==> IsTag(p.tag)
  }

  lemma OneMore(p: Piece, rest: seq<Piece>)
    ensures Joined([p] + rest) == (if p.Text? then p.text else p.tag) + Joined(rest)
    ensures Mended([p] + rest) == (if p.Text? then p.text else if p.tag == "" then "" else Fixed(p.tag)) + Mended(rest)
  {
    assert ([p] + rest)[1..] == rest;
    hide Fixed;
  }

  lemma TwoMore(text: string, tag: string, rest: seq<Piece>)
    requires IsTag(tag)
    ensures Joined([Text(text), Tag(tag)] + rest) == text + tag + Joined(rest)
    ensures Mended([Text(text), Tag(tag)] + rest) == text + Fixed(tag) + Mended(rest)
  {
    hide Fixed, Joined, Mended;
    assert tag != "";
    hide IsTag;
    assert [Text(text), Tag(tag)] + rest == [Text(text)] + ([Tag(tag)] + rest);
    OneMore(Tag(tag), rest);
    OneMore(Text(text), [Tag(tag)] + rest);
    Assoc(text, tag, Joined(rest));
    Assoc(text, Fixed(tag), Mended(rest));
  }

  lemma OnlyText(text: string)
    ensures Joined([Text(text)]) == text && Mended([Text(text)]) == text
  {
    assert [Text(text)][1..] == [];
  }

  lemma PiecesOf(html: string, at: nat, close: nat)
    requires Find(html, LINK, 0) == Some(at) && Find(html, ">", at) == Some(close)
    ensures at < close < |html|
    ensures Pieces(html) == [Text(html[..at]), Tag(html[at..close + 1])] + Pieces(html[close + 1..])
  {
    FirstTag(html, at, close);
    hide Find;
  }

  lemma PiecesOfText(html: string)
    requires Find(html, LINK, 0).None? || Find(html, ">", Find(html, LINK, 0).value).None?
    ensures Pieces(html) == [Text(html)]
  {
  }

  /** For every page: the pieces are the page, and deferring keeps every piece but the stylesheet tags. */
  lemma {:induction false} OnlyStylesheetsChange(html: string)
    ensures Joined(Pieces(html)) == html && Mended(Pieces(html)) == Defer(html)
    ensures forall p :: p in Pieces(html) ==> PieceOk(p)
    decreases |html|
  {
    hide Find, Defer, DeferFrom, Pieces, Joined, Mended, NoLink, IsTag, Fixed, At;
    var at := Find(html, LINK, 0);
    if at.None? || Find(html, ">", at.value).None? {
      PiecesOfText(html);
      OnlyText(html);
      NoTag(html, 0);
      DeferIs(html);
      assert html[0..] == html;
    } else {
      var close := Find(html, ">", at.value).value;
      FirstTag(html, at.value, close);
      PiecesOf(html, at.value, close);
      var text, tag, rest := html[..at.value], html[at.value..close + 1], html[close + 1..];
      OnlyStylesheetsChange(rest);
      TwoMore(text, tag, Pieces(rest));
      DeferOf(text, tag, rest);
    }
  }

  /** A tag that is changed is a stylesheet link without a media query and without the mark; taking the inserted
      attributes out again gives it back, up to the white space before its end. */
  lemma TakenOutAgain(tag: string)
    requires IsTag(tag) && Fixed(tag) != tag
    ensures IsStylesheetLink(tag) && !IsMarked(tag) && !HasMedia(tag)
    ensures var open, fixed := OpenPart(tag), Fixed(tag); var n, m := |open|, |open| + |INSERTED|;
            && n <= m <= |fixed| && fixed[n..m] == INSERTED
            && fixed[..n] + fixed[m..] == open + Ending(tag)
            && var cut := |tag| - (if SelfClosing(tag) then 2 else 1);
            && n <= cut && tag == open + tag[n..cut] + tag[cut..]
            && (forall i :: n <= i < cut ==> White(tag[i]))
            && tag[cut..] == if SelfClosing(tag) then "/>" else ">"
  {
    OpenPartFacts(tag);
    DeferredLetters(tag);
    var open, fixed := OpenPart(tag), Fixed(tag);
    assert fixed == Deferred(tag);
    assert fixed[..|open|] == open;
    var cut := |tag| - (if SelfClosing(tag) then 2 else 1);
    hide OpenPart, Deferred, Fixed, IsStylesheetLink, IsMarked, HasMedia, White;
    assert open == tag[..|open|];
    ThreeSlices(tag, |open|, cut);
    if !SelfClosing(tag) { assert tag[cut..] == [tag[|tag| - 1]]; }
  }

  // ---------------------------------------------------------------------------------------------- the patterns

  /** The white space and line ends of ECMAScript. */
  const WHITES: set<int> := {9, 10, 11, 12, 13, 32, 160, 0x1680, 0x2000, 0x2001, 0x2002, 0x2003, 0x2004, 0x2005, 0x2006,
                             0x2007, 0x2008, 0x2009, 0x200A, 0x2028, 0x2029, 0x202F, 0x205F, 0x3000, 0xFEFF}

  lemma WhiteIs(c: char)
    ensures White(c) <==> c as int in WHITES
  {
  }

  /** The code points of ASCII letters, digits and the underscore. */
  predicate InWord(c: char) {
    var n := c as int;
    48 <= n <= 57 || 65 <= n <= 90 || n == 95 || 97 <= n <= 122
  }

  lemma WordIs(c: char)
    ensures Word(c) <==> InWord(c)
  {
  }

  /** The pattern stands in the text where a word begins. */
  ghost predicate Has(s: string, p: string) {
    exists before, after :: s == before + p + after && (before == "" || !InWord(before[|before| - 1]))
  }

  predicate Apart(s: string, before: string, p: string, after: string) {
    && s == before + p + after && (before == "" || !InWord(before[|before| - 1]))
    && (after == "" || !InWord(after[0]))
  }

  /** It stands there as a word of its own. */
  ghost predicate HasWhole(s: string, p: string) {
    exists before, after :: Apart(s, before, p, after)
  }

  lemma Cut(s: string, i: nat, p: string)
    requires At(s, i, p)
    ensures i + |p| <= |s| && s == s[..i] + p + s[i + |p|..]
  {
  }

  lemma Glued(before: string, p: string, after: string)
    ensures At(before + p + after, |before|, p)
  {
    var s := before + p + after;
    assert s[|before|..|before| + |p|] == p;
  }

  lemma HasIs(s: string, p: string)
    requires p != ""
    ensures Has(s, p) <==> exists i :: 0 <= i < |s| && Begins(s, i, p)
  {
    if i :| 0 <= i < |s| && Begins(s, i, p) {
      Cut(s, i, p);
      if i > 0 { WordIs(s[i - 1]); }
      assert Has(s, p);
    }
    if Has(s, p) {
      var before, after :| s == before + p + after && (before == "" || !InWord(before[|before| - 1]));
      Glued(before, p, after);
      if before != "" { WordIs(before[|before| - 1]); }
      assert Begins(s, |before|, p);
    }
  }

  lemma HasWholeIs(s: string, p: string)
    requires p != ""
    ensures HasWhole(s, p)
            <==> exists i :: 0 <= i < |s| && Begins(s, i, p) && (i + |p| == |s| || !Word(s[i + |p|]))
  {
    if i :| 0 <= i < |s| && Begins(s, i, p) && (i + |p| == |s| || !Word(s[i + |p|])) {
      Cut(s, i, p);
      if i > 0 { WordIs(s[i - 1]); }
      if i + |p| < |s| { WordIs(s[i + |p|]); }
      var before, after := s[..i], s[i + |p|..];
      assert before != "" ==> before[|before| - 1] == s[i - 1];
      assert after != "" ==> after[0] == s[i + |p|];
      assert Apart(s, before, p, after);
    }
    if HasWhole(s, p) {
      var before, after :| Apart(s, before, p, after);
      Glued(before, p, after);
      if before != "" { WordIs(before[|before| - 1]); }
      if after != "" { WordIs(after[0]); assert s[|before| + |p|] == after[0]; }
      assert Begins(s, |before|, p) && |before| + |p| + |after| == |s|;
    }
  }

  /** Exactly which tags are changed, told with the patterns written out: link tags for stylesheets that have neither a
      media query nor the mark. */
  lemma WhichTagsChange(tag: string)
    requires tag != ""
    ensures Fixed(tag) != tag ==>
              && "<link" < tag && tag[5] as int in WHITES && Has(tag, "rel=\"stylesheet\"")
              && !Has(tag, "media=") && !HasWhole(tag, "data-deferred-css")
    ensures "<link" < tag && tag[5] as int in WHITES && Has(tag, "rel=\"stylesheet\"")
            && !Has(tag, "media=") && !HasWhole(tag, "data-deferred-css") ==>
              Fixed(tag) == OpenPart(tag) + " media=\"print\" data-deferred-css"
                            + if "/>" == tag[(if |tag| < 2 then 0 else |tag| - 2)..] then " />" else ">"
  {
    HasIs(tag, "rel=\"stylesheet\"");
    HasIs(tag, "media=");
    HasWholeIs(tag, "data-deferred-css");
    if "<link" < tag { WhiteIs(tag[5]); }
    hide Has, HasWhole, OpenPart, Begins, White;
  }

  /** What is left of such a tag in front of the insertion: all of it but its end and the white space before that. */
  lemma WhatStaysOfATag(tag: string)
    requires tag != "" && tag[|tag| - 1] == '>'
    ensures var end := if |tag| >= 2 && tag[|tag| - 2] == '/' then "/>" else ">"; var open := OpenPart(tag);
            && open <= tag && |open| + |end| <= |tag| && tag[|tag| - |end|..] == end
            && (open == "" || open[|open| - 1] as int !in WHITES)
            && (forall i :: |open| <= i < |tag| - |end| ==> tag[i] as int in WHITES)
  {
    var end := if |tag| >= 2 && tag[|tag| - 2] == '/' then "/>" else ">";
    assert tag[|tag| - |end|..] == end;
    var open := OpenPart(tag);
    if open != "" { WhiteIs(open[|open| - 1]); }
    forall i | |open| <= i < |tag| - |end| ensures tag[i] as int in WHITES { WhiteIs(tag[i]); }
    hide White;
  }
}
