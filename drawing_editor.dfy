/** The drawing editor (`/active`): a session folder `InkCaliber/<session>/`
    holding one `<branch>.excalidraw` scene per version branch, plus
    `preview.png` for the main branch `data`. Edits are reduced to a
    fingerprint; a changed fingerprint replaces the single pending save,
    which fires 1.5 seconds later. */
module DrawingEditor {
  import opened Wrappers
  import opened Strings
  import opened Sync
  import opened Scene

  const MainBranch: string := "data"
  const MainBranchLabel: string := "Main Branch"
  const SceneExt: string := ".excalidraw"
  const PreviewName: string := "preview.png"
  /** Delay of the autosave timer, in milliseconds. */
  const SaveDelayMs: nat := 1500

  // ---------------------------------------------------------------------
  // Branch labels: `formatBranchName`
  // ---------------------------------------------------------------------

  predicate IsBranchSeparator(c: char) { c == '-' || c == '_' }

  /** `split(/[-_]/)`: the words between separators, empty ones included. */
  function SplitWords(s: string): (r: seq<string>)
    ensures |r| >= 1
  {
    if s == [] then [""]
    else if IsBranchSeparator(s[0]) then [""] + SplitWords(s[1..])
    else var rest := SplitWords(s[1..]); [[s[0]] + rest[0]] + rest[1..]
  }

  /** `word.charAt(0).toUpperCase() + word.slice(1)`. */
  function Capitalize(w: string): string {
    if w == [] then [] else [UpperChar(w[0])] + w[1..]
  }

  function CapitalizeAll(ws: seq<string>): (r: seq<string>)
    ensures |r| == |ws| && forall i :: 0 <= i < |ws| ==> r[i] == Capitalize(ws[i])
  {
    seq(|ws|, i requires 0 <= i < |ws| => Capitalize(ws[i]))
  }

  /** `join(sep)`. */
  function JoinWith(ws: seq<string>, sep: string): string {
    if ws == [] then "" else if |ws| == 1 then ws[0] else ws[0] + sep + JoinWith(ws[1..], sep)
  }

  /** The label shown for a branch: `data` is the main branch; any other name
      has its separators turned into spaces and each word capitalised. */
  function FormatBranchName(name: string): (r: string)
    ensures name == MainBranch ==> r == MainBranchLabel
  {
    if name == MainBranch then MainBranchLabel else JoinWith(CapitalizeAll(SplitWords(name)), " ")
  }

  /** Position `i` of `s` begins a word; `atStart` says whether position 0 does. */
  predicate BeginsWord(s: string, i: int, atStart: bool)
    requires 0 <= i < |s|
  {
    if i == 0 then atStart else IsBranchSeparator(s[i - 1])
  }

  /** The label computed one character at a time, the reference the word-wise
      definition is proved against. */
  function Titled(s: string, atStart: bool): (r: string)
    ensures |r| == |s|
  {
    if s == [] then ""
    else if IsBranchSeparator(s[0]) then " " + Titled(s[1..], true)
    else [if atStart then UpperChar(s[0]) else s[0]] + Titled(s[1..], false)
  }

  lemma {:induction false} TitledChars(s: string, atStart: bool)
    ensures forall i :: 0 <= i < |s| ==>
              Titled(s, atStart)[i] ==
                if IsBranchSeparator(s[i]) then ' '
                else if BeginsWord(s, i, atStart) then UpperChar(s[i]) else s[i]
    decreases |s|
  {
    if s != [] {
      var next := IsBranchSeparator(s[0]);
      TitledChars(s[1..], next);
      forall i | 1 <= i < |s|
        ensures BeginsWord(s, i, atStart) == BeginsWord(s[1..], i - 1, next)
      {
      }
    }
  }

  lemma JoinPrefix(c: char, w: string, rest: seq<string>, sep: string)
    ensures JoinWith([[c] + w] + rest, sep) == [c] + JoinWith([w] + rest, sep)
  {
    var a := [[c] + w] + rest;
    var b := [w] + rest;
    if rest != [] {
      assert a[1..] == rest && b[1..] == rest;
    }
  }

  function CapitalizeIf(b: bool, w: string): string {
    if b then Capitalize(w) else w
  }

  /** The word-wise label of `s` equals the character-wise one. */
  predicate WordsTitled(s: string, atStart: bool) {
    var ws := SplitWords(s);
    JoinWith([CapitalizeIf(atStart, ws[0])] + CapitalizeAll(ws[1..]), " ") == Titled(s, atStart)
  }

  /** The word-wise label equals the character-wise one, for either state
      of the first word. */
  lemma {:induction false} WordsAreTitled(s: string, atStart: bool)
    ensures WordsTitled(s, atStart)
    decreases |s|
  {
    if s != [] {
      if IsBranchSeparator(s[0]) {
        WordsAreTitled(s[1..], true);
        SeparatorTitled(s, atStart);
      } else {
        WordsAreTitled(s[1..], false);
        LetterTitled(s, atStart);
      }
    }
  }

  /** A leading separator ends the first (empty) word and starts the next. */
  lemma SeparatorTitled(s: string, atStart: bool)
    requires s != [] && IsBranchSeparator(s[0]) && WordsTitled(s[1..], true)
    ensures WordsTitled(s, atStart)
  {
    var rest := SplitWords(s[1..]);
    var ws := SplitWords(s);
    assert ws == [""] + rest;
    assert ws[0] == "" && ws[1..] == rest;
    var tail := CapitalizeAll(rest);
    CapitalizeAllCons(rest);
    calc {
      JoinWith([CapitalizeIf(atStart, ws[0])] + CapitalizeAll(ws[1..]), " ");
      JoinWith([""] + tail, " ");
      { JoinEmptyHead(tail, " "); }
      " " + JoinWith(tail, " ");
      " " + JoinWith([CapitalizeIf(true, rest[0])] + CapitalizeAll(rest[1..]), " ");
      " " + Titled(s[1..], true);
      Titled(s, atStart);
    }
  }

  lemma CapitalizeAllCons(ws: seq<string>)
    requires ws != []
    ensures CapitalizeAll(ws) == [Capitalize(ws[0])] + CapitalizeAll(ws[1..])
  {
  }

  lemma JoinEmptyHead(ws: seq<string>, sep: string)
    requires ws != []
    ensures JoinWith([""] + ws, sep) == sep + JoinWith(ws, sep)
  {
    assert ([""] + ws)[1..] == ws;
  }

  /** A leading letter joins the first word, capitalised when it starts it. */
  lemma LetterTitled(s: string, atStart: bool)
    requires s != [] && !IsBranchSeparator(s[0]) && WordsTitled(s[1..], false)
    ensures WordsTitled(s, atStart)
  {
    var rest := SplitWords(s[1..]);
    var c := if atStart then UpperChar(s[0]) else s[0];
    assert SplitWords(s) == [[s[0]] + rest[0]] + rest[1..];
    assert CapitalizeIf(atStart, [s[0]] + rest[0]) == [c] + rest[0] by {
      if atStart {
        assert ([s[0]] + rest[0])[1..] == rest[0];
      }
    }
    JoinPrefix(c, rest[0], CapitalizeAll(rest[1..]), " ");
  }

  /** A branch label keeps the name's length; every `-` and `_` becomes a
      space; the first character of each word is upper-cased and the others
      are kept. */
  lemma FormatBranchNameChars(name: string)
    requires name != MainBranch
    ensures |FormatBranchName(name)| == |name|
    ensures forall i :: 0 <= i < |name| ==>
              FormatBranchName(name)[i] ==
                if IsBranchSeparator(name[i]) then ' '
                else if BeginsWord(name, i, true) then UpperChar(name[i]) else name[i]
  {
    var ws := SplitWords(name);
    WordsAreTitled(name, true);
    assert CapitalizeAll(ws) == [CapitalizeIf(true, ws[0])] + CapitalizeAll(ws[1..]);
    TitledChars(name, true);
  }

  lemma FormatBranchNameExample()
    ensures FormatBranchName("arch_v1") == "Arch V1"
  {
    FormatBranchNameChars("arch_v1");
    assert FormatBranchName("arch_v1")[0] == 'A' && FormatBranchName("arch_v1")[5] == 'V';
  }

  // ---------------------------------------------------------------------
  // Branch names, session names and the branch list
  // ---------------------------------------------------------------------

  predicate IsAsciiAlnum(c: char) { IsAsciiUpper(c) || IsAsciiLower(c) || IsDigit(c) }

  predicate IsBranchChar(c: char) { IsAsciiLower(c) || IsDigit(c) || c == '_' }

  /** What `replace(/[^a-z0-9]/gi, '_')` makes of one character. The pattern
      has no `u` flag, so it matches UTF-16 code units: a character outside
      the Basic Multilingual Plane is a surrogate pair and becomes `__`. */
  function UnderscoreChar(c: char): (r: string)
    ensures |r| == Utf16Length([c])
    ensures IsAsciiAlnum(c) ==> r == [c]
    ensures !IsAsciiAlnum(c) ==> forall i :: 0 <= i < |r| ==> r[i] == '_'
  {
    if IsAsciiAlnum(c) then [c] else if IsAstral(c) then "__" else "_"
  }

  /** `replace(/[^a-z0-9]/gi, '_')`, one character after another. */
  function UnderscoreOthers(s: string): (r: string)
    ensures |r| == Utf16Length(s)
  {
    if s == [] then [] else UnderscoreChar(s[0]) + UnderscoreOthers(s[1..])
  }

  /** The replacement leaves only ASCII letters, digits and `_`. */
  lemma {:induction false} UnderscoreOthersChars(s: string)
    ensures forall i :: 0 <= i < |UnderscoreOthers(s)| ==> IsAsciiAlnum(UnderscoreOthers(s)[i]) || UnderscoreOthers(s)[i] == '_'
    decreases |s|
  {
    if s != [] {
      UnderscoreOthersChars(s[1..]);
      var head := UnderscoreChar(s[0]);
      var r := UnderscoreOthers(s);
      assert r == head + UnderscoreOthers(s[1..]);
      assert forall i :: |head| <= i < |r| ==> r[i] == UnderscoreOthers(s[1..])[i - |head|];
    }
  }

  /** The replacement of a concatenation is the replacement of each part. */
  lemma {:induction false} UnderscoreOthersAppend(a: string, b: string)
    ensures UnderscoreOthers(a + b) == UnderscoreOthers(a) + UnderscoreOthers(b)
    decreases |a|
  {
    if a != [] {
      assert (a + b)[0] == a[0] && (a + b)[1..] == a[1..] + b;
      UnderscoreOthersAppend(a[1..], b);
    } else {
      assert a + b == b;
    }
  }

  /** Within the Basic Multilingual Plane each character is one code unit,
      so the replacement works character by character. */
  lemma {:induction false} UnderscoreOthersBmp(s: string)
    requires forall i :: 0 <= i < |s| ==> !IsAstral(s[i])
    ensures |UnderscoreOthers(s)| == |s|
    ensures forall i :: 0 <= i < |s| ==> UnderscoreOthers(s)[i] == if IsAsciiAlnum(s[i]) then s[i] else '_'
    decreases |s|
  {
    if s != [] {
      UnderscoreOthersBmp(s[1..]);
      var r := UnderscoreOthers(s);
      assert r == UnderscoreChar(s[0]) + UnderscoreOthers(s[1..]);
      assert |UnderscoreChar(s[0])| == 1;
      assert forall i :: 1 <= i < |s| ==> r[i] == UnderscoreOthers(s[1..])[i - 1] && s[i] == s[1..][i - 1];
    }
  }

  /** A text of branch characters is kept by the replacement. */
  lemma {:induction false} UnderscoreKeepsBranchChars(s: string)
    requires forall i :: 0 <= i < |s| ==> IsBranchChar(s[i])
    ensures UnderscoreOthers(s) == s
    decreases |s|
  {
    if s != [] {
      UnderscoreKeepsBranchChars(s[1..]);
      assert UnderscoreChar(s[0]) == [s[0]];
      assert s == [s[0]] + s[1..];
    }
  }

  /** The name a new branch gets from the name typed in: trimmed, every
      UTF-16 code unit other than an ASCII letter or digit replaced by `_`,
      lower-cased. Its length is the code-unit length of the trimmed name. */
  function SanitizeBranchName(raw: string): (r: string)
    ensures |r| == Utf16Length(Trim(raw))
    ensures forall i :: 0 <= i < |r| ==> IsBranchChar(r[i])
  {
    var u := UnderscoreOthers(Trim(raw));
    UnderscoreOthersChars(Trim(raw));
    LowerIsBranchName(u);
    ToLower(u)
  }

  /** Lower-casing a name of ASCII letters, digits and `_` gives branch characters. */
  lemma LowerIsBranchName(u: string)
    requires forall i :: 0 <= i < |u| ==> IsAsciiAlnum(u[i]) || u[i] == '_'
    ensures forall i :: 0 <= i < |u| ==> IsBranchChar(ToLower(u)[i])
  {
    forall i | 0 <= i < |u| ensures IsBranchChar(ToLower(u)[i]) {
      assert ToLower(u)[i] == LowerChar(u[i]);
    }
  }

  /** A name with no whitespace at either end is sanitised without trimming. */
  lemma SanitizeUntrimmed(s: string)
    requires s != [] ==> !IsWhitespace(s[0]) && !IsWhitespace(s[|s| - 1])
    ensures SanitizeBranchName(s) == ToLower(UnderscoreOthers(s))
  {
    TrimOfTrimmed(s);
  }

  /** An emoji is a surrogate pair, so it gives two `_`. */
  lemma SanitizeAstralExample()
    ensures SanitizeBranchName("\U{1F4A1}") == "__"
  {
    var bulb := "\U{1F4A1}";
    var u := UnderscoreOthers(bulb);
    assert u == "__" by {
      assert u == UnderscoreChar(bulb[0]) + UnderscoreOthers([]);
    }
    assert ToLower("__") == "__" by {
      BranchNameKeptByRewrites("__");
    }
    assert SanitizeBranchName(bulb) == ToLower(u) by {
      SanitizeUntrimmed(bulb);
    }
  }

  /** Between two letters an emoji still gives two `_`: `a😀b` gives `a__b`. */
  lemma SanitizeAstralInsideExample()
    ensures SanitizeBranchName("a" + "\U{1F600}" + "b") == "a" + "__" + "b"
  {
    var grin := "\U{1F600}";
    var s := "a" + grin + "b";
    var u := UnderscoreOthers(s);
    assert u == "a" + "__" + "b" by {
      UnderscoreOthersAppend("a" + grin, "b");
      UnderscoreOthersAppend("a", grin);
      assert UnderscoreOthers(grin) == UnderscoreChar(grin[0]) + UnderscoreOthers([]);
    }
    assert ToLower(u) == u by {
      BranchNameKeptByRewrites(u);
    }
    assert SanitizeBranchName(s) == ToLower(u) by {
      SanitizeUntrimmed(s);
    }
  }

  /** A sanitised name is its own sanitisation. */
  lemma SanitizeIdempotent(raw: string)
    ensures SanitizeBranchName(SanitizeBranchName(raw)) == SanitizeBranchName(raw)
  {
    BranchNameIsSanitized(SanitizeBranchName(raw));
  }

  /** A name made of branch characters only is kept by the sanitisation. */
  lemma BranchNameIsSanitized(s: string)
    requires forall i :: 0 <= i < |s| ==> IsBranchChar(s[i])
    ensures SanitizeBranchName(s) == s
  {
    if s != [] {
      BranchCharNotWhitespace(s[0]);
      BranchCharNotWhitespace(s[|s| - 1]);
    }
    calc {
      SanitizeBranchName(s);
      ToLower(UnderscoreOthers(Trim(s)));
      { TrimOfTrimmed(s); }
      ToLower(UnderscoreOthers(s));
      { BranchNameKeptByRewrites(s); }
      s;
    }
  }

  /** Neither the `_` replacement nor the lower-casing changes a name made
      of branch characters. */
  lemma BranchNameKeptByRewrites(s: string)
    requires forall i :: 0 <= i < |s| ==> IsBranchChar(s[i])
    ensures UnderscoreOthers(s) == s && ToLower(s) == s
  {
    UnderscoreKeepsBranchChars(s);
    var l := ToLower(s);
    assert forall i :: 0 <= i < |s| ==> l[i] == s[i];
  }

  lemma BranchCharNotWhitespace(c: char)
    requires IsBranchChar(c)
    ensures !IsWhitespace(c)
  {
  }

  /** The lines written by `toISOString().replace(/[:.]/g, "-")`. */
  function TimestampSlug(iso: string): (r: string)
    ensures |r| == |iso|
    ensures forall i :: 0 <= i < |iso| ==> r[i] == if iso[i] == ':' || iso[i] == '.' then '-' else iso[i]
  {
    seq(|iso|, i requires 0 <= i < |iso| => if iso[i] == ':' || iso[i] == '.' then '-' else iso[i])
  }

  /** The folder a new session is bound to, given the current time as an ISO string. */
  function SessionName(iso: string): (r: string)
    ensures StartsWith(r, "session-") && |r| == 8 + |iso|
    ensures forall i :: 0 <= i < |iso| ==> r[8 + i] == if iso[i] == ':' || iso[i] == '.' then '-' else iso[i]
    ensures forall i :: 0 <= i < |r| ==> r[i] != ':' && r[i] != '.'
  {
    "session-" + TimestampSlug(iso)
  }

  /** A session reference that does not yet name a folder. */
  predicate Unbound(folder: Option<string>) {
    folder.None? || folder.value == "" || folder.value == "new"
  }

  lemma SessionNameBinds(iso: string)
    ensures !Unbound(Some(SessionName(iso)))
  {
    assert SessionName(iso)[0] == 's';
  }

  /** The branch shown in the `branch` URL parameter, `data` when absent or empty. */
  function CurrentBranch(urlBranch: Option<string>): (r: string)
    ensures r != ""
    ensures urlBranch.Some? && urlBranch.value != "" ==> r == urlBranch.value
  {
    if urlBranch.Some? && urlBranch.value != "" then urlBranch.value else MainBranch
  }

  datatype Branch = Branch(value: string, title: string)

  const DefaultBranches: seq<Branch> := [Branch(MainBranch, MainBranchLabel)]

  /** A listed scene file's branch: the first `.excalidraw` removed from its
      name (`replace` with a string pattern), labelled for the selector. */
  function BranchOf(fileName: string): (r: Branch)
    ensures r.value == RemoveFirst(fileName, SceneExt) && r.title == FormatBranchName(r.value)
    ensures !Contains(fileName, SceneExt) ==> r.value == fileName
    ensures EndsWith(fileName, SceneExt) && (forall j :: 0 <= j < |fileName| - |SceneExt| ==> !OccursAt(fileName, SceneExt, j)) ==>
              r.value == fileName[..|fileName| - |SceneExt|]
  {
    RemoveSuffixOnly(fileName, SceneExt);
    var v := RemoveFirst(fileName, SceneExt);
    Branch(v, FormatBranchName(v))
  }

  /** Only the first `.excalidraw` goes: a doubled extension leaves one. */
  lemma BranchOfDoubledExtension()
    ensures BranchOf("a.excalidraw.excalidraw").value == "a.excalidraw"
  {
    var s := "a.excalidraw.excalidraw";
    assert !OccursAt(s, SceneExt, 0) by { assert s[0..11][0] == 'a'; }
    assert OccursAt(s, SceneExt, 1) by {
      assert s == "a" + SceneExt + SceneExt;
      assert s[1..12] == SceneExt;
    }
    assert IndexOf(s, SceneExt, 0) == Some(1);
    assert s[..1] + s[12..] == "a.excalidraw";
  }

  /** The branches of a folder listing: one per name ending in `.excalidraw`, in order. */
  function BranchList(names: seq<string>): (r: seq<Branch>)
    ensures |r| <= |names|
  {
    if names == [] then []
    else (if EndsWith(names[0], SceneExt) then [BranchOf(names[0])] else []) + BranchList(names[1..])
  }

  /** Exactly the listed `.excalidraw` names have a branch in the list. */
  lemma {:induction false} BranchListMembers(names: seq<string>)
    ensures forall n :: n in names && EndsWith(n, SceneExt) ==> BranchOf(n) in BranchList(names)
    ensures forall b :: b in BranchList(names) ==> exists n :: n in names && EndsWith(n, SceneExt) && b == BranchOf(n)
  {
    if names != [] {
      BranchListMembers(names[1..]);
      assert forall n :: n in names[1..] ==> n in names;
      assert forall n :: n in names ==> n == names[0] || n in names[1..];
    }
  }

  /** The branch listing is a filter-map that keeps the order of the
      listing: it distributes over concatenation, and a single name gives
      its branch exactly when it ends in `.excalidraw`. */
  lemma {:induction false} BranchListAppend(a: seq<string>, b: seq<string>)
    ensures BranchList(a + b) == BranchList(a) + BranchList(b)
  {
    if a != [] {
      assert (a + b)[0] == a[0] && (a + b)[1..] == a[1..] + b;
      BranchListAppend(a[1..], b);
      var head := if EndsWith(a[0], SceneExt) then [BranchOf(a[0])] else [];
      calc {
        BranchList(a + b);
        head + BranchList(a[1..] + b);
        head + (BranchList(a[1..]) + BranchList(b));
        (head + BranchList(a[1..])) + BranchList(b);
        BranchList(a) + BranchList(b);
      }
    } else {
      assert a + b == b;
    }
  }

  lemma BranchListSingle(n: string)
    ensures BranchList([n]) == if EndsWith(n, SceneExt) then [BranchOf(n)] else []
  {
  }

  /** `loadBranches`: the default list when the session is unbound or its
      folder cannot be read, else the folder's branches. */
  function BranchesFor(folder: Option<string>, listing: Option<seq<string>>): (r: seq<Branch>)
    ensures Unbound(folder) || listing.None? ==> r == DefaultBranches
    ensures !Unbound(folder) && listing.Some? ==> r == BranchList(listing.value)
  {
    if Unbound(folder) || listing.None? then DefaultBranches else BranchList(listing.value)
  }

  /** A branch created from any typed name is listed back under the name it
      was saved as: the sanitised name holds no `.`, so removing the first
      `.excalidraw` from its file name gives the name again. */
  lemma CreatedBranchListed(raw: string, names: seq<string>)
    requires SanitizeBranchName(raw) + SceneExt in names
    ensures var b := SanitizeBranchName(raw);
            Branch(b, FormatBranchName(b)) in BranchList(names)
  {
    var b := SanitizeBranchName(raw);
    SceneFileBranch(b);
    BranchListMembers(names);
    assert EndsWith(b + SceneExt, SceneExt) by {
      assert (b + SceneExt)[|b|..] == SceneExt;
    }
  }

  /** The scene file of a name made of branch characters lists back as that
      name: `.excalidraw` occurs in its file name only as the suffix. */
  lemma SceneFileBranch(b: string)
    requires forall i :: 0 <= i < |b| ==> IsBranchChar(b[i])
    ensures BranchOf(b + SceneExt) == Branch(b, FormatBranchName(b))
  {
    forall j | 0 <= j < |b| ensures !OccursAt(b + SceneExt, SceneExt, j) {
      assert (b + SceneExt)[j] == b[j];
      assert IsBranchChar(b[j]);
    }
    RemoveFirstSuffix(b, SceneExt);
  }

  // ---------------------------------------------------------------------
  // Autosave and session saves
  // ---------------------------------------------------------------------

  /** A file of a session folder: a branch's scene, or the main branch's preview image. */
  datatype SessionFile = SceneFile(scene: Scene) | Preview(of: seq<Element>)

  /** `Documents/InkCaliber`, folder by folder. */
  type Disk = map<string, map<string, SessionFile>>

  /** Whether each file-system call of one session save succeeds; `previewOk`
      covers the export of the preview image and its write. */
  datatype DrawIo = DrawIo(mkdirOk: bool, writeOk: bool, previewOk: bool)

  /** The part of the editor a save reads and changes: the session reference,
      the indicator, the disk, the URL parameters and the branch list. */
  datatype Session = Session(
    folder: Option<string>,
    status: SyncStatus,
    disk: Disk,
    urlFile: Option<string>,
    urlBranch: Option<string>,
    branches: seq<Branch>)

  /** The branch a save writes: the override when one is given, else the current branch. */
  function SaveTarget(urlBranch: Option<string>, branchOverride: string): (r: string)
    ensures r != ""
    ensures branchOverride != "" ==> r == branchOverride
    ensures branchOverride == "" ==> r == CurrentBranch(urlBranch)
  {
    if branchOverride != "" then branchOverride else CurrentBranch(urlBranch)
  }

  /** The folder a save writes into: the bound session, or a new one named after `now`. */
  function SaveFolder(folder: Option<string>, now: string): (r: string)
    ensures !Unbound(Some(r))
    ensures !Unbound(folder) ==> r == folder.value
    ensures Unbound(folder) ==> r == SessionName(now)
  {
    SessionNameBinds(now);
    if Unbound(folder) then SessionName(now) else folder.value
  }

  /** Writes `f` as `name` in folder `dir`, which exists. */
  function Put(disk: Disk, dir: string, name: string, f: SessionFile): Disk
    requires dir in disk
  {
    disk[dir := disk[dir][name := f]]
  }

  /** What `saveToSessionFile(scene, branchOverride)` leaves behind. */
  function SaveSessionStep(s: Session, scene: Scene, branchOverride: string, now: string, io: DrawIo, listing: Option<seq<string>>): Session
  {
    var target := SaveTarget(s.urlBranch, branchOverride);
    WriteSession(Bound(s, target, now), SaveFolder(s.folder, now), target, scene, io, listing)
  }

  /** What a save leaves behind: the session is bound first (and the URL
      updated) before any file-system call; the indicator ends `Saved`
      exactly when every step went through, and then the scene (and for
      `data` the preview) is on disk and the branches are re-read; a failed
      save keeps the branch list; no other folder, and in the session's
      folder no other file, changes. */
  lemma SaveSessionStepEffects(s: Session, scene: Scene, branchOverride: string, now: string, io: DrawIo, listing: Option<seq<string>>)
    ensures var r := SaveSessionStep(s, scene, branchOverride, now, io, listing);
            var target := SaveTarget(s.urlBranch, branchOverride);
            var dir := SaveFolder(s.folder, now);
            (r.status == Saved || r.status == Error)
            && r.folder == Some(dir)
            && (!Unbound(s.folder) ==> r.urlFile == s.urlFile && r.urlBranch == s.urlBranch)
            && (Unbound(s.folder) ==> r.urlFile == r.folder && r.urlBranch == Some(target))
            && (r.status == Saved <==> io.mkdirOk && io.writeOk && (target == MainBranch ==> io.previewOk))
            && (r.status == Saved ==>
                  dir in r.disk && target + SceneExt in r.disk[dir]
                  && r.disk[dir][target + SceneExt] == SceneFile(scene)
                  && (target == MainBranch ==> PreviewName in r.disk[dir] && r.disk[dir][PreviewName] == Preview(scene.elements))
                  && r.branches == BranchesFor(r.folder, listing))
            && (r.status == Error ==> r.branches == s.branches)
            && (forall d :: d != dir ==> (d in r.disk <==> d in s.disk) && (d in r.disk ==> r.disk[d] == s.disk[d]))
            && (dir in s.disk && dir in r.disk ==>
                  forall k :: k != target + SceneExt && (k != PreviewName || target != MainBranch) ==>
                    (k in r.disk[dir] <==> k in s.disk[dir]) && (k in r.disk[dir] ==> r.disk[dir][k] == s.disk[dir][k]))
  {
  }

  /** The session once a save started and bound it: the indicator shows
      syncing, an unbound session gets the folder named after `now`, and the
      URL is pointed at it and at the written branch. */
  function Bound(s: Session, target: string, now: string): Session {
    var dir := SaveFolder(s.folder, now);
    var syncing := s.(status := Syncing);
    if Unbound(s.folder) then syncing.(folder := Some(dir), urlFile := Some(dir), urlBranch := Some(target)) else syncing
  }

  /** The file-system part of a save of `target` into the folder `dir`:
      `mkdir`, the scene's write and, for `data`, the preview's. */
  function WriteSession(b: Session, dir: string, target: string, scene: Scene, io: DrawIo, listing: Option<seq<string>>): Session {
    if !io.mkdirOk then b.(status := Error)
    else
      var made := if dir in b.disk then b.disk else b.disk[dir := map[]];
      if !io.writeOk then b.(status := Error, disk := made)
      else
        var written := Put(made, dir, target + SceneExt, SceneFile(scene));
        if target == MainBranch && !io.previewOk then b.(status := Error, disk := written)
        else
          var previewed := if target == MainBranch then Put(written, dir, PreviewName, Preview(scene.elements)) else written;
          b.(status := Saved, disk := previewed, branches := BranchesFor(Some(dir), listing))
  }

  /** Once a save has bound the session, every later save writes into the
      same folder, whatever the time. */
  lemma SessionBoundOnce(s: Session, a: Scene, b: Scene, o1: string, o2: string, t1: string, t2: string,
                         io1: DrawIo, io2: DrawIo, l1: Option<seq<string>>, l2: Option<seq<string>>)
    ensures var first := SaveSessionStep(s, a, o1, t1, io1, l1);
            SaveSessionStep(first, b, o2, t2, io2, l2).folder == first.folder
            && SaveSessionStep(first, b, o2, t2, io2, l2).urlFile == first.urlFile
  {
    var first := SaveSessionStep(s, a, o1, t1, io1, l1);
    SaveSessionStepEffects(s, a, o1, t1, io1, l1);
    SaveSessionStepEffects(first, b, o2, t2, io2, l2);
  }

  /** A scheduled save: the scene it writes and the branch that was current
      when it was scheduled, which the timer's callback closes over. */
  datatype PendingSave = PendingSave(scene: Scene, branch: string)

  /** The autosave state: the loaded flag, the last fingerprint (`None`
      before any, which no scene's fingerprint equals) and the pending save. */
  datatype AutoSave = AutoSave(isLoaded: bool, last: Option<seq<Stamp>>, pending: Option<PendingSave>)

  /** What `handleAutoSave(elements, appState)` leaves behind, rendered while
      `branch` is the current branch. */
  function AutoSaveStep(a: AutoSave, elements: seq<Element>, appState: AppState, branch: string): (r: AutoSave)
    ensures r.isLoaded == a.isLoaded
    ensures !a.isLoaded || a.last == Some(Fingerprint(elements)) ==> r == a
    ensures a.isLoaded ==> r.last == Some(Fingerprint(elements))
    ensures a.isLoaded && a.last != Some(Fingerprint(elements)) ==> r.pending == Some(PendingSave(Scene(elements, appState), branch))
  {
    if !a.isLoaded then a
    else
      var fp := Fingerprint(elements);
      if a.last == Some(fp) then a
      else a.(last := Some(fp), pending := Some(PendingSave(Scene(elements, appState), branch)))
  }

  /** A repeated change report with the same elements schedules nothing new:
      the first report's save stays pending with its own scene. */
  lemma AutoSaveRepeat(a: AutoSave, elements: seq<Element>, app1: AppState, app2: AppState, b1: string, b2: string)
    ensures AutoSaveStep(AutoSaveStep(a, elements, app1, b1), elements, app2, b2) == AutoSaveStep(a, elements, app1, b1)
  {
  }

  /** An edit undone before the timer fires still leaves a save pending: the
      fingerprint is compared with the last one reported, not with the last
      one saved, so going back to the loaded scene schedules its write. */
  lemma UndoneEditStillSaves(a: AutoSave, original: seq<Element>, edited: seq<Element>, app: AppState, branch: string)
    requires a.isLoaded && a.last == Some(Fingerprint(original))
    requires Fingerprint(edited) != Fingerprint(original)
    ensures AutoSaveStep(a, edited, app, branch).pending == Some(PendingSave(Scene(edited, app), branch))
    ensures AutoSaveStep(AutoSaveStep(a, edited, app, branch), original, app, branch).pending == Some(PendingSave(Scene(original, app), branch))
  {
  }

  /** A save scheduled while `scheduled` was the URL's branch writes that
      branch when it fires, whatever branch the URL shows by then. */
  lemma PendingSaveKeepsBranch(a: AutoSave, elements: seq<Element>, app: AppState, scheduled: Option<string>, later: Option<string>)
    requires a.isLoaded && a.last != Some(Fingerprint(elements))
    ensures var p := AutoSaveStep(a, elements, app, CurrentBranch(scheduled)).pending;
            p.Some? && SaveTarget(later, p.value.branch) == CurrentBranch(scheduled)
  {
  }

  /** A change report whose elements agree with the last ones by id, version
      and nonce is ignored, whatever moved. */
  lemma SameStampsIgnored(a: AutoSave, before: seq<Element>, after: seq<Element>, app1: AppState, app2: AppState, b1: string, b2: string)
    requires |before| == |after|
    requires forall i :: 0 <= i < |before| ==> StampOf(before[i]) == StampOf(after[i])
    ensures AutoSaveStep(AutoSaveStep(a, before, app1, b1), after, app2, b2) == AutoSaveStep(a, before, app1, b1)
  {
    FingerprintEqual(before, after);
  }

  /** The result of `remove` on a branch file of the folder `dir`: it fails
      when the folder or the file is missing. */
  function DeleteBranchStep(disk: Disk, dir: string, branchName: string, confirmed: bool, removeOk: bool): (r: Disk)
    ensures branchName == MainBranch || !confirmed ==> r == disk
    ensures forall d :: d != dir ==> (d in r <==> d in disk) && (d in r ==> r[d] == disk[d])
    ensures dir in disk <==> dir in r
    ensures dir in r ==> forall k :: k != branchName + SceneExt ==> (k in r[dir] <==> k in disk[dir]) && (k in r[dir] ==> r[dir][k] == disk[dir][k])
    ensures dir in r ==> (branchName + SceneExt !in r[dir] <==> branchName + SceneExt !in disk[dir] || (branchName != MainBranch && confirmed && removeOk))
  {
    if branchName == MainBranch || !confirmed then disk
    else if removeOk && dir in disk && branchName + SceneExt in disk[dir] then disk[dir := disk[dir] - {branchName + SceneExt}]
    else disk
  }

  /** The main branch's scene is never removed by a branch deletion. */
  lemma MainBranchKept(disk: Disk, dir: string, branchName: string, confirmed: bool, removeOk: bool)
    requires dir in disk && MainBranch + SceneExt in disk[dir]
    ensures var r := DeleteBranchStep(disk, dir, branchName, confirmed, removeOk);
            dir in r && MainBranch + SceneExt in r[dir] && r[dir][MainBranch + SceneExt] == disk[dir][MainBranch + SceneExt]
  {
    if branchName + SceneExt == MainBranch + SceneExt {
      assert branchName == (branchName + SceneExt)[..|branchName|];
      assert MainBranch == (MainBranch + SceneExt)[..|MainBranch|];
    }
  }

  /** The drawing editor: the canvas, the session reference, the indicator,
      the disk, the URL parameters, the branch list and the autosave state.
      `theme` is the stored theme at mount. */
  class DrawingEditor {
    const theme: string
    var canvas: Scene
    var sessionFolder: Option<string>
    var status: SyncStatus
    var disk: Disk
    var urlFile: Option<string>
    var urlBranch: Option<string>
    var branches: seq<Branch>
    var isLoaded: bool
    var lastFingerprint: Option<seq<Stamp>>
    var pending: Option<PendingSave>

    function SessionState(): Session
      reads this
    {
      Session(sessionFolder, status, disk, urlFile, urlBranch, branches)
    }

    function AutoState(): AutoSave
      reads this
    {
      AutoSave(isLoaded, lastFingerprint, pending)
    }

    /** Mounting on `?file=<urlFile>&branch=<urlBranch>`: the session
        reference starts as the URL's file. */
    constructor (theme: string, urlFile: Option<string>, urlBranch: Option<string>, disk: Disk)
      ensures this.theme == theme && this.urlFile == urlFile && this.urlBranch == urlBranch && this.disk == disk
      ensures sessionFolder == urlFile && status == Saved && branches == []
      ensures !isLoaded && lastFingerprint == None && pending == None
      ensures canvas == Scene([], AppState(theme, ""))
    {
      this.theme := theme;
      canvas := Scene([], AppState(theme, ""));
      sessionFolder := urlFile;
      status := Saved;
      this.disk := disk;
      this.urlFile := urlFile;
      this.urlBranch := urlBranch;
      branches := [];
      isLoaded := false;
      lastFingerprint := None;
      pending := None;
    }

    /** `loadBranches`, with the folder's listing (`None` when it cannot be read). */
    method LoadBranches(listing: Option<seq<string>>)
      modifies this`branches
      ensures branches == BranchesFor(sessionFolder, listing)
    {
      if sessionFolder.None? || sessionFolder.value == "" || sessionFolder.value == "new" {
        branches := DefaultBranches;
        return;
      }
      if listing.None? {
        branches := DefaultBranches;
        return;
      }
      branches := BranchList(listing.value);
    }

    /** `loadInitialData`: reads the current branch of the URL's session. A
        successful load shows the scene in the stored theme and records its
        fingerprint; a failed one still ends `Saved` and loaded. */
    method LoadInitialData(listing: Option<seq<string>>)
      modifies this`canvas, this`lastFingerprint, this`isLoaded, this`status, this`branches
      ensures isLoaded && branches == BranchesFor(sessionFolder, listing)
      ensures Unbound(urlFile) ==> canvas == old(canvas) && lastFingerprint == old(lastFingerprint) && status == old(status)
      ensures !Unbound(urlFile) ==> status == Saved
      ensures !Unbound(urlFile) && urlFile.value in disk && CurrentBranch(urlBranch) + SceneExt in disk[urlFile.value]
              && disk[urlFile.value][CurrentBranch(urlBranch) + SceneExt].SceneFile? ==>
                var loaded := disk[urlFile.value][CurrentBranch(urlBranch) + SceneExt].scene;
                canvas == Scene(loaded.elements, loaded.appState.(theme := theme))
                && lastFingerprint == Some(Fingerprint(loaded.elements))
      ensures !(!Unbound(urlFile) && urlFile.value in disk && CurrentBranch(urlBranch) + SceneExt in disk[urlFile.value]
              && disk[urlFile.value][CurrentBranch(urlBranch) + SceneExt].SceneFile?) ==>
                canvas == old(canvas) && lastFingerprint == old(lastFingerprint)
    {
      if urlFile.None? || urlFile.value == "" || urlFile.value == "new" {
        isLoaded := true;
        LoadBranches(listing);
        return;
      }
      status := Loading;
      var dir := urlFile.value;
      var path := CurrentBranch(urlBranch) + SceneExt;
      if dir in disk && path in disk[dir] && disk[dir][path].SceneFile? {
        var data := disk[dir][path].scene;
        canvas := Scene(data.elements, data.appState.(theme := theme));
        lastFingerprint := Some(Fingerprint(data.elements));
      }
      isLoaded := true;
      status := Saved;
      LoadBranches(listing);
    }

    /** `saveToSessionFile`; `branchOverride` is "" when there is none. */
    method SaveToSessionFile(scene: Scene, branchOverride: string, now: string, io: DrawIo, listing: Option<seq<string>>)
      modifies this`sessionFolder, this`status, this`disk, this`urlFile, this`urlBranch, this`branches
      ensures SessionState() == SaveSessionStep(old(SessionState()), scene, branchOverride, now, io, listing)
    {
      status := Syncing;
      var target := if branchOverride != "" then branchOverride else CurrentBranch(urlBranch);
      if sessionFolder.None? || sessionFolder.value == "" || sessionFolder.value == "new" {
        var name := SessionName(now);
        SessionNameBinds(now);
        sessionFolder := Some(name);
        urlFile := Some(name);
        urlBranch := Some(target);
      }
      assert SessionState() == Bound(old(SessionState()), target, now);
      WriteToFolder(sessionFolder.value, target, scene, io, listing);
    }

    /** The file-system part of `saveToSessionFile` once the session is bound
        to the folder `dir`. */
    method WriteToFolder(dir: string, target: string, scene: Scene, io: DrawIo, listing: Option<seq<string>>)
      requires sessionFolder == Some(dir) && status == Syncing
      modifies this`status, this`disk, this`branches
      ensures SessionState() == WriteSession(old(SessionState()), dir, target, scene, io, listing)
    {
      if !io.mkdirOk {
        status := Error;
        return;
      }
      if dir !in disk {
        disk := disk[dir := map[]];
      }
      WriteScenes(dir, target, scene, io);
      if status == Syncing {
        status := Saved;
        LoadBranches(listing);
      }
    }

    /** The two writes of a save into the existing folder `dir`: the branch's
        scene, then for `data` the preview; a failed write ends the save in `Error`. */
    method WriteScenes(dir: string, target: string, scene: Scene, io: DrawIo)
      requires dir in disk && status == Syncing
      modifies this`disk, this`status
      ensures !io.writeOk ==> disk == old(disk) && status == Error
      ensures io.writeOk && target == MainBranch && !io.previewOk ==>
                disk == Put(old(disk), dir, target + SceneExt, SceneFile(scene)) && status == Error
      ensures io.writeOk && target == MainBranch && io.previewOk ==>
                disk == Put(Put(old(disk), dir, target + SceneExt, SceneFile(scene)), dir, PreviewName, Preview(scene.elements))
                && status == Syncing
      ensures io.writeOk && target != MainBranch ==> disk == Put(old(disk), dir, target + SceneExt, SceneFile(scene)) && status == Syncing
    {
      if !io.writeOk {
        status := Error;
        return;
      }
      disk := Put(disk, dir, target + SceneExt, SceneFile(scene));
      if target == MainBranch {
        if !io.previewOk {
          status := Error;
          return;
        }
        disk := Put(disk, dir, PreviewName, Preview(scene.elements));
      }
    }

    /** The canvas's change report, handed to `handleAutoSave`: the canvas
        now holds the reported scene, and the pending save is replaced when
        the fingerprint changed; the save targets the branch current now. */
    method HandleAutoSave(elements: seq<Element>, appState: AppState)
      modifies this`canvas, this`lastFingerprint, this`pending
      ensures canvas == Scene(elements, appState)
      ensures AutoState() == AutoSaveStep(old(AutoState()), elements, appState, CurrentBranch(urlBranch))
    {
      canvas := Scene(elements, appState);
      if !isLoaded {
        return;
      }
      var currentFingerprint := Fingerprint(elements);
      if Some(currentFingerprint) == lastFingerprint {
        return;
      }
      lastFingerprint := Some(currentFingerprint);
      if pending.Some? {
        pending := None;
      }
      pending := Some(PendingSave(Scene(elements, appState), CurrentBranch(urlBranch)));
    }

    /** The pending timer fires: the scene it carries is saved to the branch
        that was current when it was scheduled, whatever the URL shows now. */
    method FireSave(now: string, io: DrawIo, listing: Option<seq<string>>)
      requires pending.Some?
      modifies this`sessionFolder, this`status, this`disk, this`urlFile, this`urlBranch, this`branches, this`pending
      ensures pending == None
      ensures SessionState() == SaveSessionStep(old(SessionState()), old(pending).value.scene, old(pending).value.branch, now, io, listing)
    {
      var job := pending.value;
      pending := None;
      SaveToSessionFile(job.scene, job.branch, now, io, listing);
    }

    /** `handleCreateBranch`: a blank name does nothing; otherwise the live
        canvas (the scene last reported by the canvas) is saved as the sanitised branch and the URL then shows that branch
        with the `file` parameter the page had before the save (the text
        `null` when there was none). Returns whether the dialog closes. */
    method HandleCreateBranch(newBranchName: string, now: string, io: DrawIo, listing: Option<seq<string>>) returns (closed: bool)
      modifies this`sessionFolder, this`status, this`disk, this`urlFile, this`urlBranch, this`branches
      ensures closed <==> !IsBlank(newBranchName)
      ensures !closed ==> SessionState() == old(SessionState())
      ensures closed ==>
                var saved := SaveSessionStep(old(SessionState()), canvas, SanitizeBranchName(newBranchName), now, io, listing);
                SessionState() == saved.(urlFile := Some(old(urlFile).GetOr("null")), urlBranch := Some(SanitizeBranchName(newBranchName)))
    {
      if IsBlank(newBranchName) {
        return false;
      }
      var sanitized := SanitizeBranchName(newBranchName);
      var sessionFile := urlFile;
      ghost var s0 := SessionState();
      SaveToSessionFile(canvas, sanitized, now, io, listing);
      ghost var saved := SessionState();
      assert saved == SaveSessionStep(s0, canvas, sanitized, now, io, listing);
      ShowInUrl(sessionFile.GetOr("null"), sanitized);
      assert SessionState() == saved.(urlFile := Some(s0.urlFile.GetOr("null")), urlBranch := Some(sanitized));
      return true;
    }

    /** The URL update after a branch is created: the file parameter and the branch. */
    method ShowInUrl(file: string, branch: string)
      modifies this`urlFile, this`urlBranch
      ensures SessionState() == old(SessionState()).(urlFile := Some(file), urlBranch := Some(branch))
    {
      urlFile := Some(file);
      urlBranch := Some(branch);
    }

    /** `handleDeleteBranch`: `data` is never deleted and nothing happens
        without confirmation; the file is removed from the URL's session and
        the branch list is reloaded only when the removal succeeds. */
    method HandleDeleteBranch(branchName: string, confirmed: bool, removeOk: bool, listing: Option<seq<string>>)
      modifies this`disk, this`branches
      ensures disk == DeleteBranchStep(old(disk), urlFile.GetOr("null"), branchName, confirmed, removeOk)
      ensures branches == if disk != old(disk) then BranchesFor(sessionFolder, listing) else old(branches)
    {
      if branchName == MainBranch {
        return;
      }
      if !confirmed {
        return;
      }
      var dir := urlFile.GetOr("null");
      var path := branchName + SceneExt;
      if removeOk && dir in disk && path in disk[dir] {
        disk := disk[dir := disk[dir] - {path}];
        assert path in old(disk)[dir] && path !in disk[dir];
        LoadBranches(listing);
      }
    }
  }
}
