/** What the four gallery pages share: the listing of a folder with each
    entry's modification time, the search-and-sort view, the "Untitled N"
    numbering of new files, the normalisation of a typed new name, and the
    moves between a folder and its `.trash` twin. */
module Library {
  import opened Wrappers
  import opened Strings
  import opened Sync

  // ---------------------------------------------------------------------
  // Listings
  // ---------------------------------------------------------------------

  /** A listed entry: its name and its modification time in milliseconds
      since the epoch (0 when unknown). */
  datatype Listed = Listed(name: string, mtime: int)

  /** The outcome of the `stat` a listing makes for an entry: failed, or
      succeeded with a modification time that may be missing. */
  datatype StatResult = StatFailed | Stat(mtime: Option<int>)

  /** A `readDir` entry together with the outcome of the `stat` made for it. */
  datatype DirEntry = DirEntry(name: string, isDirectory: bool, stat: StatResult)

  /** `fileStat.mtime || new Date(0)` with a failed `stat` also giving the epoch. */
  function MTimeOf(st: StatResult): int {
    match st
    case StatFailed => 0
    case Stat(m) => m.GetOr(0)
  }

  function ListedOf(e: DirEntry): Listed {
    Listed(e.name, MTimeOf(e.stat))
  }

  /** The chat and note listings: the entries whose name ends in `ext`, in
      order, each with its time or the epoch. */
  function ListByExtension(entries: seq<DirEntry>, ext: string): (r: seq<Listed>)
    ensures |r| <= |entries|
    ensures forall e :: e in entries && EndsWith(e.name, ext) ==> ListedOf(e) in r
    ensures forall l :: l in r ==> EndsWith(l.name, ext) && exists e :: e in entries && l == ListedOf(e)
  {
    if entries == [] then []
    else
      var rest := ListByExtension(entries[1..], ext);
      assert forall e :: e in entries[1..] ==> e in entries;
      (if EndsWith(entries[0].name, ext) then [ListedOf(entries[0])] else []) + rest
  }

  /** The legacy gallery's listing: as `ListByExtension`, but one failed
      `stat` fails the whole listing. */
  function ListAllOrNothing(entries: seq<DirEntry>, ext: string): (r: Option<seq<Listed>>)
    ensures r.None? <==> exists e :: e in entries && EndsWith(e.name, ext) && e.stat.StatFailed?
    ensures r.Some? ==> r.value == ListByExtension(entries, ext)
  {
    if exists e :: e in entries && EndsWith(e.name, ext) && e.stat.StatFailed? then None
    else Some(ListByExtension(entries, ext))
  }

  /** The folders the other pages keep in `InkCaliber` (and in its trash)
      next to the drawing sessions. */
  predicate IsAppFolder(name: string) {
    name == ".trash" || name == "chat" || name == "notes" || name == "system-prompts"
  }

  /** The session listing as the session gallery computes it: every directory
      other than `.trash`, with the time of its `data.excalidraw`. */
  function ListSessionsAsWritten(entries: seq<DirEntry>): (r: seq<Listed>)
    ensures |r| <= |entries|
  {
    if entries == [] then []
    else
      (if entries[0].isDirectory && entries[0].name != ".trash" then [ListedOf(entries[0])] else [])
      + ListSessionsAsWritten(entries[1..])
  }

  /** Exactly the directories other than `.trash` are listed. */
  lemma {:induction false} ListSessionsAsWrittenMembers(entries: seq<DirEntry>)
    ensures forall e :: e in entries && e.isDirectory && e.name != ".trash" ==> ListedOf(e) in ListSessionsAsWritten(entries)
    ensures forall l :: l in ListSessionsAsWritten(entries) ==>
              l.name != ".trash" && exists e :: e in entries && e.isDirectory && l == ListedOf(e)
  {
    if entries != [] {
      ListSessionsAsWrittenMembers(entries[1..]);
      assert forall e :: e in entries[1..] ==> e in entries;
      assert forall e :: e in entries ==> e == entries[0] || e in entries[1..];
    }
  }

  /** The listing keeps the order of `readDir`: it distributes over
      concatenation, and one entry is listed exactly when it is a directory
      other than `.trash`. */
  lemma {:induction false} ListSessionsAsWrittenAppend(a: seq<DirEntry>, b: seq<DirEntry>)
    ensures ListSessionsAsWritten(a + b) == ListSessionsAsWritten(a) + ListSessionsAsWritten(b)
  {
    if a != [] {
      assert (a + b)[0] == a[0] && (a + b)[1..] == a[1..] + b;
      ListSessionsAsWrittenAppend(a[1..], b);
      var head := if a[0].isDirectory && a[0].name != ".trash" then [ListedOf(a[0])] else [];
      calc {
        ListSessionsAsWritten(a + b);
        head + ListSessionsAsWritten(a[1..] + b);
        head + (ListSessionsAsWritten(a[1..]) + ListSessionsAsWritten(b));
        (head + ListSessionsAsWritten(a[1..])) + ListSessionsAsWritten(b);
        ListSessionsAsWritten(a) + ListSessionsAsWritten(b);
      }
    } else {
      assert a + b == b;
    }
  }

  lemma ListSessionsAsWrittenSingle(e: DirEntry)
    ensures ListSessionsAsWritten([e]) == if e.isDirectory && e.name != ".trash" then [ListedOf(e)] else []
  {
  }

  /** The chat page's folder is offered as a drawing session. */
  lemma ChatFolderListedAsSession()
    ensures ListSessionsAsWritten([DirEntry("chat", true, StatFailed)]) == [Listed("chat", 0)]
  {
  }

  /** The session listing with the other pages' folders left out: exactly the
      directories that are not app folders, in order. */
  function ListSessions(entries: seq<DirEntry>): (r: seq<Listed>)
    ensures |r| <= |entries|
  {
    if entries == [] then []
    else
      (if entries[0].isDirectory && !IsAppFolder(entries[0].name) then [ListedOf(entries[0])] else [])
      + ListSessions(entries[1..])
  }

  /** Exactly the directories that are not app folders are listed. */
  lemma {:induction false} ListSessionsMembers(entries: seq<DirEntry>)
    ensures forall e :: e in entries && e.isDirectory && !IsAppFolder(e.name) ==> ListedOf(e) in ListSessions(entries)
    ensures forall l :: l in ListSessions(entries) ==>
              !IsAppFolder(l.name) && exists e :: e in entries && e.isDirectory && l == ListedOf(e)
  {
    if entries != [] {
      ListSessionsMembers(entries[1..]);
      assert forall e :: e in entries[1..] ==> e in entries;
      assert forall e :: e in entries ==> e == entries[0] || e in entries[1..];
    }
  }

  /** The corrected listing keeps the order of `readDir` too. */
  lemma {:induction false} ListSessionsAppend(a: seq<DirEntry>, b: seq<DirEntry>)
    ensures ListSessions(a + b) == ListSessions(a) + ListSessions(b)
  {
    if a != [] {
      assert (a + b)[0] == a[0] && (a + b)[1..] == a[1..] + b;
      ListSessionsAppend(a[1..], b);
      var head := if a[0].isDirectory && !IsAppFolder(a[0].name) then [ListedOf(a[0])] else [];
      calc {
        ListSessions(a + b);
        head + ListSessions(a[1..] + b);
        head + (ListSessions(a[1..]) + ListSessions(b));
        (head + ListSessions(a[1..])) + ListSessions(b);
        ListSessions(a) + ListSessions(b);
      }
    } else {
      assert a + b == b;
    }
  }

  lemma ListSessionsSingle(e: DirEntry)
    ensures ListSessions([e]) == if e.isDirectory && !IsAppFolder(e.name) then [ListedOf(e)] else []
  {
  }

  /** The two listings differ only in the app folders: with none of them
      among the entries, the corrected listing is the one the page shows. */
  lemma {:induction false} ListingsAgreeWithoutAppFolders(entries: seq<DirEntry>)
    requires forall i :: 0 <= i < |entries| ==> !IsAppFolder(entries[i].name)
    ensures ListSessions(entries) == ListSessionsAsWritten(entries)
  {
    if entries != [] {
      ListingsAgreeWithoutAppFolders(entries[1..]);
    }
  }

  lemma ChatFolderNotASession()
    ensures ListSessions([DirEntry("chat", true, StatFailed)]) == []
  {
  }

  // ---------------------------------------------------------------------
  // Search and sort
  // ---------------------------------------------------------------------

  /** The search: the lower-cased name contains the lower-cased query. */
  predicate Matches(name: string, query: string) {
    Contains(ToLower(name), ToLower(query))
  }

  /** The search over a list: the matching entries, each as often as in the list. */
  function Filtered(xs: seq<Listed>, query: string): (r: seq<Listed>)
    ensures |r| <= |xs|
  {
    if xs == [] then []
    else (if Matches(xs[0].name, query) then [xs[0]] else []) + Filtered(xs[1..], query)
  }

  /** The search keeps every matching entry as often as the list holds it,
      and no other entry. */
  lemma {:induction false} FilteredCounts(xs: seq<Listed>, query: string)
    ensures forall x :: multiset(Filtered(xs, query))[x] == if Matches(x.name, query) then multiset(xs)[x] else 0
    ensures forall x :: x in Filtered(xs, query) <==> x in xs && Matches(x.name, query)
    ensures multiset(Filtered(xs, query)) <= multiset(xs)
  {
    if xs != [] {
      FilteredCounts(xs[1..], query);
      MultisetCons(xs);
      var head := if Matches(xs[0].name, query) then [xs[0]] else [];
      assert multiset(Filtered(xs, query)) == multiset(head) + multiset(Filtered(xs[1..], query));
    }
  }

  /** The search keeps the order of the list. */
  lemma {:induction false} FilteredAppend(a: seq<Listed>, b: seq<Listed>, query: string)
    ensures Filtered(a + b, query) == Filtered(a, query) + Filtered(b, query)
  {
    if a != [] {
      assert (a + b)[0] == a[0] && (a + b)[1..] == a[1..] + b;
      FilteredAppend(a[1..], b, query);
      var head := if Matches(a[0].name, query) then [a[0]] else [];
      calc {
        Filtered(a + b, query);
        head + Filtered(a[1..] + b, query);
        head + (Filtered(a[1..], query) + Filtered(b, query));
        (head + Filtered(a[1..], query)) + Filtered(b, query);
        Filtered(a, query) + Filtered(b, query);
      }
    } else {
      assert a + b == b;
    }
  }

  /** Every name contains the empty query, so an empty search keeps the list. */
  lemma {:induction false} EmptyQueryKeepsAll(xs: seq<Listed>)
    ensures Filtered(xs, "") == xs
  {
    if xs != [] {
      assert OccursAt(ToLower(xs[0].name), ToLower(""), 0);
      EmptyQueryKeepsAll(xs[1..]);
      assert xs == [xs[0]] + xs[1..];
    }
  }

  datatype SortKey = ByName | ByDate

  /** The sort selector: `name`, and anything else sorts by date. */
  function SortKeyOf(sortBy: string): SortKey {
    if sortBy == "name" then ByName else ByDate
  }

  /** The order `localeCompare` stands for here: code-point lexicographic order. */
  predicate StrLe(a: string, b: string)
    decreases |a|
  {
    a == [] || (b != [] && (a[0] < b[0] || (a[0] == b[0] && StrLe(a[1..], b[1..]))))
  }

  lemma {:induction false} StrLeTotal(a: string, b: string)
    ensures StrLe(a, b) || StrLe(b, a)
    decreases |a|
  {
    if a != [] && b != [] && a[0] == b[0] {
      StrLeTotal(a[1..], b[1..]);
    }
  }

  lemma {:induction false} StrLeTrans(a: string, b: string, c: string)
    requires StrLe(a, b) && StrLe(b, c)
    ensures StrLe(a, c)
    decreases |a|
  {
    if a != [] && a[0] == b[0] && b[0] == c[0] {
      StrLeTrans(a[1..], b[1..], c[1..]);
    }
  }

  /** `x` may come before `y`: names ascending, or times descending. */
  predicate Before(x: Listed, y: Listed, key: SortKey) {
    match key
    case ByName => StrLe(x.name, y.name)
    case ByDate => x.mtime >= y.mtime
  }

  lemma BeforeTotal(x: Listed, y: Listed, key: SortKey)
    ensures Before(x, y, key) || Before(y, x, key)
  {
    if key == ByName {
      StrLeTotal(x.name, y.name);
    }
  }

  lemma BeforeTrans(x: Listed, y: Listed, z: Listed, key: SortKey)
    requires Before(x, y, key) && Before(y, z, key)
    ensures Before(x, z, key)
  {
    if key == ByName {
      StrLeTrans(x.name, y.name, z.name);
    }
  }

  predicate Sorted(xs: seq<Listed>, key: SortKey) {
    forall i, j :: 0 <= i < j < |xs| ==> Before(xs[i], xs[j], key)
  }

  /** One step of a stable insertion sort: `x` goes before the first entry it may precede. */
  function Insert(x: Listed, xs: seq<Listed>, key: SortKey): seq<Listed> {
    if xs == [] then [x]
    else if Before(x, xs[0], key) then [x] + xs
    else [xs[0]] + Insert(x, xs[1..], key)
  }

  /** An entry that may precede every entry of a sorted list may head it. */
  lemma PrependSorted(x: Listed, xs: seq<Listed>, key: SortKey)
    requires Sorted(xs, key)
    requires forall j :: 0 <= j < |xs| ==> Before(x, xs[j], key)
    ensures Sorted([x] + xs, key)
  {
    var r := [x] + xs;
    forall i, j | 0 <= i < j < |r| ensures Before(r[i], r[j], key) {
      assert r[j] == xs[j - 1];
      if i > 0 {
        assert r[i] == xs[i - 1];
      }
    }
  }

  lemma TailSorted(xs: seq<Listed>, key: SortKey)
    requires Sorted(xs, key) && xs != []
    ensures Sorted(xs[1..], key)
  {
    var tail := xs[1..];
    forall i, j | 0 <= i < j < |tail| ensures Before(tail[i], tail[j], key) {
      assert tail[i] == xs[i + 1] && tail[j] == xs[j + 1];
    }
  }

  /** Inserting adds exactly the one entry. */
  lemma {:induction false} InsertMultiset(x: Listed, xs: seq<Listed>, key: SortKey)
    ensures multiset(Insert(x, xs, key)) == multiset(xs) + multiset{x}
    decreases |xs|
  {
    if xs != [] && !Before(x, xs[0], key) {
      InsertMultiset(x, xs[1..], key);
      assert xs == [xs[0]] + xs[1..];
    }
  }

  /** An entry that may precede `x` and every entry of `tail` may precede
      every entry of `x` inserted into `tail`. */
  lemma HeadBeforeInserted(h: Listed, x: Listed, tail: seq<Listed>, key: SortKey)
    requires Before(h, x, key)
    requires forall j :: 0 <= j < |tail| ==> Before(h, tail[j], key)
    ensures forall j :: 0 <= j < |Insert(x, tail, key)| ==> Before(h, Insert(x, tail, key)[j], key)
  {
    var ins := Insert(x, tail, key);
    InsertMultiset(x, tail, key);
    forall j | 0 <= j < |ins| ensures Before(h, ins[j], key) {
      assert ins[j] in multiset(ins);
      if ins[j] != x {
        assert ins[j] in multiset(tail);
        var k :| 0 <= k < |tail| && tail[k] == ins[j];
      }
    }
  }

  lemma {:induction false} InsertSorted(x: Listed, xs: seq<Listed>, key: SortKey)
    requires Sorted(xs, key)
    ensures Sorted(Insert(x, xs, key), key)
    decreases |xs|
  {
    if xs == [] {
    } else if Before(x, xs[0], key) {
      forall j | 0 <= j < |xs| ensures Before(x, xs[j], key) {
        if j > 0 {
          BeforeTrans(x, xs[0], xs[j], key);
        }
      }
      PrependSorted(x, xs, key);
    } else {
      BeforeTotal(x, xs[0], key);
      var tail := xs[1..];
      TailSorted(xs, key);
      InsertSorted(x, tail, key);
      assert forall j :: 0 <= j < |tail| ==> tail[j] == xs[j + 1];
      HeadBeforeInserted(xs[0], x, tail, key);
      PrependSorted(xs[0], Insert(x, tail, key), key);
    }
  }

  lemma MultisetCons(xs: seq<Listed>)
    requires xs != []
    ensures multiset(xs) == multiset(xs[1..]) + multiset{xs[0]}
  {
    assert xs == [xs[0]] + xs[1..];
  }

  /** `sort` with the page's comparator: ordered by the key, and the same
      entries with the same multiplicities. */
  function SortBy(xs: seq<Listed>, key: SortKey): (r: seq<Listed>)
    ensures Sorted(r, key)
    ensures multiset(r) == multiset(xs)
  {
    if xs == [] then []
    else
      var rest := SortBy(xs[1..], key);
      InsertSorted(xs[0], rest, key);
      InsertMultiset(xs[0], rest, key);
      MultisetCons(xs);
      Insert(xs[0], rest, key)
  }

  /** The list a gallery shows: the trash or the active list, filtered by the
      search and sorted by the selector. */
  function Processed(active: seq<Listed>, trash: seq<Listed>, showTrash: bool, query: string, sortBy: string): seq<Listed> {
    SortBy(Filtered(if showTrash then trash else active, query), SortKeyOf(sortBy))
  }

  /** The shown list is sorted, is a permutation of the matching entries, and
      holds exactly the entries of the chosen list that match the search. */
  lemma ProcessedSpec(active: seq<Listed>, trash: seq<Listed>, showTrash: bool, query: string, sortBy: string)
    ensures var shown := Processed(active, trash, showTrash, query, sortBy);
            var source := if showTrash then trash else active;
            Sorted(shown, SortKeyOf(sortBy))
            && multiset(shown) == multiset(Filtered(source, query))
            && (forall x :: multiset(shown)[x] == if Matches(x.name, query) then multiset(source)[x] else 0)
            && forall x :: x in shown <==> x in source && Matches(x.name, query)
  {
    var source := if showTrash then trash else active;
    var shown := Processed(active, trash, showTrash, query, sortBy);
    FilteredCounts(source, query);
    forall x ensures x in shown <==> x in Filtered(source, query) {
      assert x in shown <==> x in multiset(shown);
    }
  }

  // ---------------------------------------------------------------------
  // "Untitled N"
  // ---------------------------------------------------------------------

  const JsonExt: string := ".json"

  /** The two naming schemes: `Untitled Chat N` (chats) and `Untitled N` (notes). */
  datatype UntitledScheme = ChatScheme | NoteScheme

  function DigitsValue(d: string): nat
    requires IsDigits(d)
  {
    ParseDecimalNonNegative(d);
    ParseDecimal(d) as nat
  }

  const ChatTitlePrefix: string := "Untitled Chat "
  const NoteTitlePrefix: string := "Untitled"

  /** `^Untitled Chat (\d+)\.json$`: the number a matching name carries. */
  function MatchChatTitle(name: string): (r: Option<nat>)
    ensures r.Some? ==> EndsWith(name, JsonExt) && |name| >= 14 + 5
  {
    if |name| >= 14 + 5 && StartsWith(name, "Untitled Chat ") && EndsWith(name, JsonExt) then
      var mid := name[14..|name| - 5];
      if mid != [] && IsDigits(mid) then Some(DigitsValue(mid)) else None
    else None
  }

  /** `^Untitled\s+(\d+)\.json$`: the number a matching name carries; the
      whitespace run ends where the digits begin. */
  function MatchNoteTitle(name: string): (r: Option<nat>)
    ensures r.Some? ==> EndsWith(name, JsonExt) && |name| >= 8 + 5
  {
    if |name| >= 8 + 5 && StartsWith(name, "Untitled") && EndsWith(name, JsonExt) then
      var mid := name[8..|name| - 5];
      var digits := TrimStart(mid);
      if |digits| < |mid| && digits != [] && IsDigits(digits) then Some(DigitsValue(digits)) else None
    else None
  }

  /** A chat name matches only as the prefix, a non-empty digit run and
      `.json`, and it carries the value of those digits. */
  lemma MatchChatTitleShape(name: string)
    ensures MatchChatTitle(name).Some? ==>
              var digits := name[14..|name| - 5];
              name == ChatTitlePrefix + digits + JsonExt && digits != [] && IsDigits(digits)
              && MatchChatTitle(name).value == DigitsValue(digits)
  {
    if MatchChatTitle(name).Some? {
      SplitAround(name, ChatTitlePrefix, name[14..|name| - 5], JsonExt);
    }
  }

  /** A note name matches only as `Untitled`, a non-empty whitespace run, a
      non-empty digit run and `.json`, and it carries the value of those
      digits. */
  lemma MatchNoteTitleShape(name: string)
    ensures MatchNoteTitle(name).Some? ==>
              var mid := name[8..|name| - 5];
              var digits := TrimStart(mid);
              var gap := mid[..|mid| - |digits|];
              name == NoteTitlePrefix + gap + digits + JsonExt
              && gap != [] && IsBlank(gap) && digits != [] && IsDigits(digits)
              && MatchNoteTitle(name).value == DigitsValue(digits)
  {
    if MatchNoteTitle(name).Some? {
      NoteTitleParts(name);
    }
  }

  /** A name of the note shape splits into the prefix, the whitespace that
      `trimStart` drops, what it keeps, and the extension. */
  lemma NoteTitleParts(name: string)
    requires |name| >= 8 + 5 && StartsWith(name, "Untitled") && EndsWith(name, JsonExt)
    ensures var mid := name[8..|name| - 5];
            var digits := TrimStart(mid);
            var gap := mid[..|mid| - |digits|];
            name == NoteTitlePrefix + gap + digits + JsonExt && IsBlank(gap)
  {
    NoteTitleSplit(name, TrimStart(name[8..|name| - 5]));
  }

  /** The split of `NoteTitleParts` for any tail `digits` of the middle. */
  lemma NoteTitleSplit(name: string, digits: string)
    requires |name| >= 8 + 5 && StartsWith(name, "Untitled") && EndsWith(name, JsonExt)
    requires |digits| <= |name| - 13 && digits == name[8..|name| - 5][|name| - 13 - |digits|..]
    ensures name == NoteTitlePrefix + name[8..|name| - 5][..|name| - 13 - |digits|] + digits + JsonExt
  {
    var mid := name[8..|name| - 5];
    var gap := mid[..|mid| - |digits|];
    assert mid == gap + digits;
    SplitAround(name, NoteTitlePrefix, gap + digits, JsonExt);
  }

  /** Every name of the chat pattern matches, with the value of its digits:
      with `MatchChatTitleShape`, a name matches exactly when it
      is the prefix, a non-empty digit run and `.json`. */
  lemma MatchChatTitleAccepts(digits: string)
    requires digits != [] && IsDigits(digits)
    ensures MatchChatTitle(ChatTitlePrefix + digits + JsonExt) == Some(DigitsValue(digits))
  {
    var name := ChatTitlePrefix + digits + JsonExt;
    assert EndsWith(name, JsonExt) by { assert name[|name| - 5..] == JsonExt; }
    assert StartsWith(name, ChatTitlePrefix) by { assert name[..14] == ChatTitlePrefix; }
    assert name[14..|name| - 5] == digits;
  }

  /** Leading zeros are read as `parseInt` reads them. */
  lemma MatchChatTitleLeadingZeros()
    ensures MatchChatTitle("Untitled Chat 007.json") == Some(7)
  {
    var d := "007";
    assert IsDigits(d);
    assert ChatTitlePrefix + d + JsonExt == "Untitled Chat 007.json";
    MatchChatTitleAccepts(d);
    assert ParseDecimal(d) == 7 by {
      assert d[..2] == "00" && "00"[..1] == "0" && "0"[..0] == [];
    }
  }

  /** Every name of the note pattern (`Untitled`, a whitespace run, digits,
      `.json`) matches with the value of its digits. */
  lemma MatchNoteTitleAccepts(gap: string, digits: string)
    requires gap != [] && IsBlank(gap) && digits != [] && IsDigits(digits)
    ensures MatchNoteTitle(NoteTitlePrefix + gap + digits + JsonExt) == Some(DigitsValue(digits))
  {
    var name := NoteTitlePrefix + gap + digits + JsonExt;
    assert EndsWith(name, JsonExt) by { assert name[|name| - 5..] == JsonExt; }
    assert StartsWith(name, NoteTitlePrefix) by { assert name[..8] == NoteTitlePrefix; }
    assert name[8..|name| - 5] == gap + digits;
    assert !IsWhitespace(digits[0]) by { assert IsDigit(digits[0]); }
    TrimStartBlankPrefix(gap, digits);
  }

  function MatchUntitled(scheme: UntitledScheme, name: string): (r: Option<nat>)
    ensures r.Some? ==> EndsWith(name, JsonExt)
  {
    match scheme
    case ChatScheme => MatchChatTitle(name)
    case NoteScheme => MatchNoteTitle(name)
  }

  /** The title of the `n`-th untitled file. */
  function UntitledTitle(scheme: UntitledScheme, n: nat): string {
    match scheme
    case ChatScheme => "Untitled Chat " + NatToString(n)
    case NoteScheme => "Untitled " + NatToString(n)
  }

  lemma ChatRoundTrip(n: nat)
    ensures MatchUntitled(ChatScheme, UntitledTitle(ChatScheme, n) + JsonExt) == Some(n)
  {
    var digits := NatToString(n);
    var name := "Untitled Chat " + digits + JsonExt;
    ParseNatToString(n);
    assert EndsWith(name, JsonExt) by { assert name[|name| - 5..] == JsonExt; }
    assert StartsWith(name, "Untitled Chat ") by { assert name[..14] == "Untitled Chat "; }
    assert name[14..|name| - 5] == digits;
  }

  lemma SpaceThenDigits(digits: string)
    requires digits != [] && IsDigits(digits)
    ensures TrimStart(" " + digits) == digits
  {
    assert (" " + digits)[1..] == digits;
    assert !IsWhitespace(digits[0]) by { assert IsDigit(digits[0]); }
  }

  lemma NoteRoundTrip(n: nat)
    ensures MatchUntitled(NoteScheme, UntitledTitle(NoteScheme, n) + JsonExt) == Some(n)
  {
    var digits := NatToString(n);
    var name := "Untitled " + digits + JsonExt;
    ParseNatToString(n);
    assert EndsWith(name, JsonExt) by { assert name[|name| - 5..] == JsonExt; }
    assert StartsWith(name, "Untitled") by { assert name[..8] == "Untitled"; }
    assert name[8..|name| - 5] == " " + digits;
    SpaceThenDigits(digits);
  }

  /** The file of an untitled title carries its number back. */
  lemma UntitledRoundTrip(scheme: UntitledScheme, n: nat)
    ensures MatchUntitled(scheme, UntitledTitle(scheme, n) + JsonExt) == Some(n)
  {
    if scheme == ChatScheme {
      ChatRoundTrip(n);
    } else {
      NoteRoundTrip(n);
    }
  }

  /** The number each name carries, if it matches. */
  function Numbers(scheme: UntitledScheme, names: seq<string>): (r: seq<Option<nat>>)
    ensures |r| == |names|
    ensures forall i :: 0 <= i < |names| ==> r[i] == MatchUntitled(scheme, names[i])
  {
    seq(|names|, i requires 0 <= i < |names| => MatchUntitled(scheme, names[i]))
  }

  /** The largest present number, 0 when none is. */
  function MaxPresent(nums: seq<Option<nat>>): (r: nat)
    ensures forall i :: 0 <= i < |nums| && nums[i].Some? ==> nums[i].value <= r
    ensures r == 0 || exists i :: 0 <= i < |nums| && nums[i] == Some(r)
  {
    if nums == [] then 0
    else
      var front := nums[..|nums| - 1];
      var m := MaxPresent(front);
      assert forall i :: 0 <= i < |front| ==> front[i] == nums[i];
      var last := nums[|nums| - 1];
      if last.Some? && last.value > m then last.value else m
  }

  /** The largest number carried by a matching name, 0 when none matches. */
  function MaxUntitled(scheme: UntitledScheme, names: seq<string>): (r: nat)
    ensures forall i :: 0 <= i < |names| && MatchUntitled(scheme, names[i]).Some? ==> MatchUntitled(scheme, names[i]).value <= r
    ensures r == 0 || exists i :: 0 <= i < |names| && MatchUntitled(scheme, names[i]) == Some(r)
  {
    var nums := Numbers(scheme, names);
    assert forall i :: 0 <= i < |names| ==> nums[i] == MatchUntitled(scheme, names[i]);
    MaxPresent(nums)
  }

  /** The `maxNum` loop of `handleCreateNewChat` / `handleCreateNewNote`: the
      number the next untitled file gets. */
  method NextUntitledNumber(scheme: UntitledScheme, names: seq<string>) returns (next: nat)
    ensures next == MaxUntitled(scheme, names) + 1
  {
    ghost var nums := Numbers(scheme, names);
    var maxNum := 0;
    for i := 0 to |names|
      invariant maxNum == MaxPresent(nums[..i])
    {
      var m := MatchUntitled(scheme, names[i]);
      MaxPresentStep(nums, i);
      if m.Some? && m.value > maxNum {
        maxNum := m.value;
      }
    }
    assert nums[..|names|] == nums;
    next := maxNum + 1;
  }

  /** One more number either raises the maximum to itself or leaves it. */
  lemma MaxPresentStep(nums: seq<Option<nat>>, i: nat)
    requires i < |nums|
    ensures MaxPresent(nums[..i + 1]) ==
              if nums[i].Some? && nums[i].value > MaxPresent(nums[..i]) then nums[i].value else MaxPresent(nums[..i])
  {
    assert nums[..i + 1][..i] == nums[..i];
  }

  /** The new untitled file never has the name of a listed entry. */
  lemma NextUntitledIsFree(scheme: UntitledScheme, names: seq<string>)
    ensures UntitledTitle(scheme, MaxUntitled(scheme, names) + 1) + JsonExt !in names
  {
    var n := MaxUntitled(scheme, names) + 1;
    UntitledRoundTrip(scheme, n);
    assert forall i :: 0 <= i < |names| ==> MatchUntitled(scheme, names[i]) != Some(n);
  }

  /** The title a new untitled file gets: numbered one past the largest
      listed number, so its file is not among the listed names. */
  function NextUntitledTitle(scheme: UntitledScheme, names: seq<string>): (t: string)
    ensures t + JsonExt !in names
  {
    NextUntitledIsFree(scheme, names);
    UntitledTitle(scheme, MaxUntitled(scheme, names) + 1)
  }

  /** The new title's file carries the next number back. */
  lemma NextUntitledTitleNumber(scheme: UntitledScheme, names: seq<string>)
    ensures MatchUntitled(scheme, NextUntitledTitle(scheme, names) + JsonExt) == Some(MaxUntitled(scheme, names) + 1)
  {
    UntitledRoundTrip(scheme, MaxUntitled(scheme, names) + 1);
  }

  // ---------------------------------------------------------------------
  // Renames and the trash
  // ---------------------------------------------------------------------

  /** The target of a rename: `None` for a blank name, else the trimmed name
      with `ext` appended when it does not already end with it. */
  function NormalizeRename(newName: string, ext: string): (r: Option<string>)
    ensures r.None? <==> IsBlank(newName)
    ensures r.Some? ==> EndsWith(r.value, ext)
    ensures r.Some? ==> r.value == Trim(newName) || r.value == Trim(newName) + ext
  {
    TrimEmptyIffBlank(newName);
    var t := Trim(newName);
    if |t| == 0 then None
    else if EndsWith(t, ext) then Some(t)
    else
      assert (t + ext)[|t + ext| - |ext|..] == ext;
      Some(t + ext)
  }

  /** Normalising a normalised name changes nothing, for an extension that
      does not end in whitespace. */
  lemma NormalizeIdempotent(newName: string, ext: string)
    requires ext != [] ==> !IsWhitespace(ext[|ext| - 1])
    requires !IsBlank(newName)
    ensures NormalizeRename(NormalizeRename(newName, ext).value, ext) == NormalizeRename(newName, ext)
  {
    var t := Trim(newName);
    var r := NormalizeRename(newName, ext).value;
    TrimEmptyIffBlank(newName);
    if r != t {
      assert r[0] == t[0];
      if ext != [] {
        assert r[|r| - 1] == ext[|ext| - 1];
      }
    }
    TrimOfTrimmed(r);
    TrimEmptyIffBlank(r);
  }

  /** What a rename in a chat or note folder ends in. */
  datatype RenameResult = Ignored | SameName | Exists | RenameFailed | Done

  datatype Renamed<C> = Renamed(result: RenameResult, files: map<string, C>)

  /** `handleRename` of the chat and note galleries: ignore a blank name,
      close without any file-system change on the same name, refuse a name
      that exists (its `stat` succeeds), then rename, which fails when the
      old file is missing. */
  function GuardedRename<C>(files: map<string, C>, oldName: string, newName: string, ext: string, renameOk: bool): (r: Renamed<C>)
    ensures r.result == Ignored <==> IsBlank(newName)
    ensures r.result == SameName <==> NormalizeRename(newName, ext) == Some(oldName)
    ensures r.result == Exists <==>
              NormalizeRename(newName, ext).Some? && NormalizeRename(newName, ext).value != oldName
              && NormalizeRename(newName, ext).value in files
    ensures r.result == Done <==>
              NormalizeRename(newName, ext).Some? && NormalizeRename(newName, ext).value != oldName
              && NormalizeRename(newName, ext).value !in files && renameOk && oldName in files
    ensures r.result != Done ==> r.files == files
    ensures r.result == Done ==> r.files == Moved(files, oldName, NormalizeRename(newName, ext).value)
  {
    match NormalizeRename(newName, ext)
    case None => Renamed(Ignored, files)
    case Some(target) =>
      if target == oldName then Renamed(SameName, files)
      else if target in files then Renamed(Exists, files)
      else if renameOk && oldName in files then Renamed(Done, Moved(files, oldName, target))
      else Renamed(RenameFailed, files)
  }

  /** A successful rename moves exactly the one entry: the target holds the
      old content, the old name is gone, every other entry is as it was. */
  lemma RenameMovesOne<C>(files: map<string, C>, oldName: string, newName: string, ext: string, renameOk: bool)
    requires GuardedRename(files, oldName, newName, ext, renameOk).result == Done
    ensures var target := NormalizeRename(newName, ext).value;
            var after := GuardedRename(files, oldName, newName, ext, renameOk).files;
            target in after && after[target] == files[oldName] && oldName !in after
            && |after| == |files|
            && forall k :: k != oldName && k != target ==> (k in after <==> k in files) && (k in after ==> after[k] == files[k])
  {
    var target := NormalizeRename(newName, ext).value;
    var after := Moved(files, oldName, target);
    assert after.Keys == files.Keys - {oldName} + {target};
  }

  /** The rename of the session and legacy galleries: no collision check, so
      on success an entry already at the target is replaced; it fails when
      the old entry is missing. */
  function PlainRename<C>(files: map<string, C>, oldName: string, target: string, renameOk: bool): (r: Option<map<string, C>>)
    ensures r.Some? <==> renameOk && oldName in files
    ensures r.Some? ==> r.value == Moved(files, oldName, target)
  {
    if renameOk && oldName in files then Some(Moved(files, oldName, target)) else None
  }

  /** Renaming onto an existing entry loses that entry's content. */
  lemma PlainRenameOverwrites<C>(files: map<string, C>, oldName: string, target: string)
    requires oldName in files && target in files && oldName != target
    ensures var r := PlainRename(files, oldName, target, true).value;
            r[target] == files[oldName] && oldName !in r && |r| == |files| - 1
  {
    var r := PlainRename(files, oldName, target, true).value;
    assert r.Keys == files.Keys - {oldName};
  }

  /** A folder and its trash twin, by entry name. */
  datatype Folders<C> = Folders(active: map<string, C>, trash: map<string, C>)

  /** Move-to-trash: renames the entry into the trash (replacing a trashed
      entry of the same name); fails when the entry is missing. */
  function ToTrash<C>(f: Folders<C>, name: string, renameOk: bool): (r: Option<Folders<C>>)
    ensures r.Some? <==> renameOk && name in f.active
    ensures r.Some? ==> r.value.active == f.active - {name} && r.value.trash == f.trash[name := f.active[name]]
  {
    if renameOk && name in f.active then Some(Folders(f.active - {name}, f.trash[name := f.active[name]])) else None
  }

  /** Restore: renames the entry back out of the trash (replacing an active
      entry of the same name); fails when the entry is missing. */
  function FromTrash<C>(f: Folders<C>, name: string, renameOk: bool): (r: Option<Folders<C>>)
    ensures r.Some? <==> renameOk && name in f.trash
    ensures r.Some? ==> r.value.trash == f.trash - {name} && r.value.active == f.active[name := f.trash[name]]
  {
    if renameOk && name in f.trash then Some(Folders(f.active[name := f.trash[name]], f.trash - {name})) else None
  }

  /** Permanent delete: removes the trashed entry; the active folder is not touched. */
  function DeleteForever<C>(f: Folders<C>, name: string, removeOk: bool): (r: Option<Folders<C>>)
    ensures r.Some? <==> removeOk && name in f.trash
    ensures r.Some? ==> r.value.active == f.active && r.value.trash == f.trash - {name}
  {
    if removeOk && name in f.trash then Some(Folders(f.active, f.trash - {name})) else None
  }

  /** Trashing an entry and restoring it gives back both folders, when the
      trash had no entry of that name. */
  lemma RestoreUndoesTrash<C>(f: Folders<C>, name: string)
    requires name in f.active && name !in f.trash
    ensures ToTrash(f, name, true).Some?
    ensures FromTrash(ToTrash(f, name, true).value, name, true) == Some(f)
  {
    var t := ToTrash(f, name, true).value;
    var back := FromTrash(t, name, true).value;
    assert back.active == f.active;
    assert back.trash == f.trash;
  }
}
