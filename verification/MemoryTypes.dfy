/** The records of the memory engine and of the server's staged transactions. */
module MemoryTypes {
  import opened Wrappers

  datatype MemoryType = Semantic | Episodic | Working | Procedural

  /** Unicode white space, as the source language's `trim` takes it. */
  predicate IsSpace(c: char) {
    var code := c as int;
    || 0x09 <= code <= 0x0D || code == 0x20 || code == 0x85 || code == 0xA0 || code == 0x1680
    || 0x2000 <= code <= 0x200A || code == 0x2028 || code == 0x2029 || code == 0x202F || code == 0x205F
    || code == 0x3000
  }

  /** These are the 25 code points that the Unicode Character Database lists as `White_Space`. */
  lemma WhiteSpace(c: char)
    ensures IsSpace(c) <==>
            c as int in {0x09, 0x0A, 0x0B, 0x0C, 0x0D, 0x20, 0x85, 0xA0, 0x1680, 0x2000, 0x2001, 0x2002, 0x2003,
                         0x2004, 0x2005, 0x2006, 0x2007, 0x2008, 0x2009, 0x200A, 0x2028, 0x2029, 0x202F, 0x205F, 0x3000}
  {
  }

  predicate Blank(s: string) {
    forall i | 0 <= i < |s| :: IsSpace(s[i])
  }

  function Trimmed(s: string): string {
    if s == "" then s
    else if IsSpace(s[0]) then Trimmed(s[1..])
    else if IsSpace(s[|s| - 1]) then Trimmed(s[..|s| - 1])
    else s
  }

  function LowerChar(c: char): char {
    if 'A' <= c <= 'Z' then c + 32 as char else c
  }

  function Lowered(s: string): string {
    seq(|s|, i requires 0 <= i < |s| => LowerChar(s[i]))
  }

  /** Everything that names no other type is semantic. */
  function ParseMemoryType(value: string): MemoryType {
    var name := Lowered(Trimmed(value));
    if name == "episodic" then Episodic
    else if name == "working" then Working
    else if name == "procedural" then Procedural
    else Semantic
  }

  lemma {:induction false} TrimmedIgnoresSpace(s: string, c: char)
    requires IsSpace(c)
    ensures Trimmed([c] + s) == Trimmed(s) && Trimmed(s + [c]) == Trimmed(s)
  {
    assert ([c] + s)[1..] == s;
    if s == "" {
      assert s + [c] == [c] + s;
    } else if IsSpace(s[0]) {
      TrimmedIgnoresSpace(s[1..], c);
      assert (s + [c])[1..] == s[1..] + [c];
    } else {
      assert (s + [c])[..|s + [c]| - 1] == s;
    }
  }

  /** Trimming takes away exactly the white space at both ends. */
  lemma {:induction false} TrimmedIsTheMiddle(s: string) returns (front: string, back: string)
    ensures s == front + Trimmed(s) + back && Blank(front) && Blank(back)
    ensures Trimmed(s) != "" ==> !IsSpace(Trimmed(s)[0]) && !IsSpace(Trimmed(s)[|Trimmed(s)| - 1])
  {
    hide IsSpace, Blank;
    assert Blank("") by { NothingIsBlank(); }
    if s == "" || !(IsSpace(s[0]) || IsSpace(s[|s| - 1])) {
      front, back := "", "";
    } else if IsSpace(s[0]) {
      front, back := TrimmedIsTheMiddle(s[1..]);
      BlankNext(s[0], front);
      SpaceInFront(s[0], front, Trimmed(s), back);
      front := [s[0]] + front;
      assert s == [s[0]] + s[1..];
    } else {
      front, back := TrimmedIsTheMiddle(s[..|s| - 1]);
      BlankNext(s[|s| - 1], back);
      back := back + [s[|s| - 1]];
      assert s == s[..|s| - 1] + [s[|s| - 1]];
    }
  }

  lemma NothingIsBlank()
    ensures Blank("")
  {
  }

  lemma BlankNext(c: char, s: string)
    requires IsSpace(c) && Blank(s)
    ensures Blank([c] + s) && Blank(s + [c])
  {
    hide IsSpace;
  }

  lemma SpaceInFront(c: char, front: string, middle: string, back: string)
    ensures [c] + (front + middle + back) == ([c] + front) + middle + back
  {
  }

  /** The same character, or the same ASCII letter in the other case. */
  predicate SameLetter(a: char, b: char) {
    || a == b
    || ('A' <= a <= 'Z' && b as int == a as int + 32)
    || ('A' <= b <= 'Z' && a as int == b as int + 32)
  }

  /** Equal but for the case of ASCII letters. */
  predicate SameButCase(a: string, b: string) {
    |a| == |b| && forall i | 0 <= i < |a| :: SameLetter(a[i], b[i])
  }

  lemma LoweredAlike(a: string, b: string)
    ensures SameButCase(a, b) <==> Lowered(a) == Lowered(b)
  {
    assert forall x, y :: SameLetter(x, y) <==> LowerChar(x) == LowerChar(y);
    if Lowered(a) == Lowered(b) {
      assert |a| == |Lowered(a)| == |Lowered(b)| == |b|;
      forall i | 0 <= i < |a|
        ensures SameLetter(a[i], b[i])
      {
        assert Lowered(a)[i] == Lowered(b)[i];
      }
    }
  }

  lemma {:induction false} TrimmedAlike(a: string, b: string)
    requires SameButCase(a, b)
    ensures SameButCase(Trimmed(a), Trimmed(b))
  {
    if a != "" {
      if IsSpace(a[0]) {
        assert a[0] == b[0] && SameButCase(a[1..], b[1..]);
        TrimmedAlike(a[1..], b[1..]);
      } else if IsSpace(a[|a| - 1]) {
        assert a[|a| - 1] == b[|b| - 1] && !IsSpace(b[0]) && SameButCase(a[..|a| - 1], b[..|b| - 1]);
        TrimmedAlike(a[..|a| - 1], b[..|b| - 1]);
      } else {
        assert !IsSpace(b[0]) && !IsSpace(b[|b| - 1]);
      }
    }
  }

  /** White space around the name of a type is of no account, and neither is the case of its letters. */
  lemma MemoryTypeIgnoresSpaceAndCase(value: string, other: string, c: char)
    requires IsSpace(c)
    ensures ParseMemoryType([c] + value) == ParseMemoryType(value) == ParseMemoryType(value + [c])
    ensures SameButCase(value, other) ==> ParseMemoryType(value) == ParseMemoryType(other)
  {
    TrimmedIgnoresSpace(value, c);
    if SameButCase(value, other) {
      TrimmedAlike(value, other);
      LoweredAlike(Trimmed(value), Trimmed(other));
    }
  }

  function NameOf(t: MemoryType): string {
    match t
    case Semantic => "semantic"
    case Episodic => "episodic"
    case Working => "working"
    case Procedural => "procedural"
  }

  /** The text is the name of the type, but for white space around it and the case of its letters. */
  predicate Names(value: string, t: MemoryType) {
    SameButCase(Trimmed(value), NameOf(t))
  }

  /** A text is of a type other than semantic exactly when it names that type. */
  lemma ParsesExactlyTheNames(value: string, t: MemoryType)
    ensures t != Semantic ==> (ParseMemoryType(value) == t <==> Names(value, t))
    ensures Names(value, t) ==> ParseMemoryType(value) == t
  {
    LoweredAlike(Trimmed(value), NameOf(t));
    LoweredNames();
    hide Trimmed, Lowered, SameButCase;
  }

  lemma LoweredNames()
    ensures forall t: MemoryType :: Lowered(NameOf(t)) == NameOf(t)
  {
  }

  /** A type's own name is parsed as that type. */
  lemma NamesParse(t: MemoryType)
    ensures ParseMemoryType(NameOf(t)) == t
  {
    var name := NameOf(t);
    assert !IsSpace(name[0]) && !IsSpace(name[|name| - 1]);
    assert Trimmed(name) == name;
    ParsesExactlyTheNames(name, t);
  }

  datatype StagedMemory = StagedMemory(content: string, memoryType: string, tags: seq<string>, metadata: Json)

  /** A memory as the core engine keeps it. */
  datatype Record = Record(content: string, memoryType: MemoryType, tags: seq<string>)

  /** A memory as the vector engine keeps it. */
  datatype Entry = Entry(id: Uuid, record: Record, metadata: Json)

  function RecordOf(item: StagedMemory): Record {
    Record(item.content, ParseMemoryType(item.memoryType), item.tags)
  }

  function EntryOf(id: Uuid, item: StagedMemory): Entry {
    Entry(id, RecordOf(item), item.metadata)
  }

  /** The record is that of the item: its content and tags, and the type that its text names. */
  predicate Keeps(record: Record, item: StagedMemory) {
    && record.content == item.content && record.tags == item.tags
    && forall t: MemoryType | t != Semantic :: record.memoryType == t <==> Names(item.memoryType, t)
  }

  /** The entry is that of the item under the identifier `id`. */
  predicate Shows(entry: Entry, id: Uuid, item: StagedMemory) {
    entry.id == id && entry.metadata == item.metadata && Keeps(entry.record, item)
  }

  lemma EntryShows(id: Uuid, item: StagedMemory)
    ensures Keeps(RecordOf(item), item) && Shows(EntryOf(id, item), id, item)
  {
    forall t: MemoryType | t != Semantic
      ensures RecordOf(item).memoryType == t <==> Names(item.memoryType, t)
    {
      ParsesExactlyTheNames(item.memoryType, t);
    }
  }

  /** What a transaction has inserted but not committed. */
  datatype Draft = Draft(id: Uuid, item: StagedMemory)

  function Records(core: map<Uuid, Record>, drafts: seq<Draft>): map<Uuid, Record> {
    if drafts == [] then core
    else
      var last := drafts[|drafts| - 1];
      Records(core, drafts[..|drafts| - 1])[last.id := RecordOf(last.item)]
  }

  function Entries(drafts: seq<Draft>): (entries: seq<Entry>)
    ensures |entries| == |drafts|
    ensures forall k | 0 <= k < |drafts| :: entries[k] == EntryOf(drafts[k].id, drafts[k].item)
  {
    seq(|drafts|, k requires 0 <= k < |drafts| => EntryOf(drafts[k].id, drafts[k].item))
  }

  /** The entries whose upsert succeeded. */
  function Selected(entries: seq<Entry>, answers: seq<bool>): seq<Entry>
    requires |answers| <= |entries|
  {
    if answers == [] then []
    else
      var last := |answers| - 1;
      Selected(entries, answers[..last]) + (if answers[last] then [entries[last]] else [])
  }
}
