/** How the printed lines of an event file read back, string by string and line by line. */
module EventLines {
  import opened Wrappers
  import opened Texts
  import opened Approvals
  import opened Ledger
  import opened Events
  import opened EventReader
  import LineCodec
  import ScalarCodec
  import Decimal

  // ---- Stripping and partitioning ----------------------------------------------------------------------------------

  lemma {:induction false} StripLeftMeans(s: string)
    ensures StripLeft(s) == "" || !IsSpace(StripLeft(s)[0])
    ensures |StripLeft(s)| <= |s| && StripLeft(s) == s[|s| - |StripLeft(s)|..]
    ensures forall i :: 0 <= i < |s| && !IsSpace(s[i]) ==> i >= |s| - |StripLeft(s)|
  {
    hide IsSpace;
    if s != "" && IsSpace(s[0]) {
      StripLeftMeans(s[1..]);
      forall i | 0 <= i < |s| && !IsSpace(s[i]) ensures i >= |s| - |StripLeft(s)| {
        assert s[i] == s[1..][i - 1];
      }
    }
  }

  lemma {:induction false} StripRightMeans(s: string)
    ensures StripRight(s) == "" || !IsSpace(StripRight(s)[|StripRight(s)| - 1])
    ensures StripRight(s) <= s
    ensures forall i :: 0 <= i < |s| && !IsSpace(s[i]) ==> i < |StripRight(s)|
  {
    hide IsSpace;
    if s != "" && IsSpace(s[|s| - 1]) {
      StripRightMeans(s[..|s| - 1]);
    }
  }

  lemma StripMeans(s: string)
    ensures Stripped(Strip(s)) && Strip(Strip(s)) == Strip(s)
    ensures s != "" && !IsSpace(s[0]) ==> Strip(s) <= s
    ensures forall c :: c in Strip(s) ==> c in s
  {
    StripLeftMeans(s);
    StripRightMeans(StripLeft(s));
    StripKeeps(Strip(s));
    hide IsSpace;
  }

  /** What is not a space stays, and everything before it if the text starts with something else than a space. */
  lemma StripStops(s: string, i: nat)
    requires i < |s| && !IsSpace(s[i])
    ensures Strip(s) != ""
    ensures !IsSpace(s[0]) ==> i < |Strip(s)| && Strip(s)[..i + 1] == s[..i + 1]
  {
    StripLeftMeans(s);
    StripRightMeans(StripLeft(s));
    var t := StripLeft(s);
    assert t[i - (|s| - |t|)] == s[i];
    hide IsSpace;
  }

  lemma StripPad(s: string)
    ensures Strip(" " + s) == Strip(s)
  {
    assert (" " + s)[1..] == s;
  }

  lemma {:induction false} ColonAfter(a: string, b: string)
    requires ':' !in a
    ensures Colon(a + ":" + b) == |a|
  {
    var s := a + ":" + b;
    if a != "" {
      assert s[0] == a[0] && s[1..] == a[1..] + ":" + b;
      ColonAfter(a[1..], b);
    }
  }

  lemma PartitionAt(a: string, b: string)
    requires ':' !in a
    ensures Partition(a + ":" + b) == (Strip(a), Strip(b)) && ':' in a + ":" + b
  {
    ColonAfter(a, b);
    var s := a + ":" + b;
    assert s[..|a|] == a && s[|a| + 1..] == b && s[|a|] == ':';
    hide Strip, Colon;
  }

  /** An entry, as the printer writes it. */
  lemma PartitionEntry(name: string, text: string)
    requires ':' !in name && Stripped(name)
    ensures Partition(Entry(name, text)) == (name, Strip(text)) && ':' in Entry(name, text)
  {
    assert name + ": " + text == name + ":" + (" " + text);
    PartitionAt(name, " " + text);
    StripKeeps(name);
    StripPad(text);
    hide Partition, Strip, Stripped;
  }

  // ---- Printed texts ----------------------------------------------------------------------------------------------

  lemma {:induction false} ReplacedChars(s: string, c: char, with: string, x: char)
    requires x !in with && x != c
    ensures x in ScalarCodec.ReplaceChar(s, c, with) <==> x in s
  {
    if s != "" {
      ReplacedChars(s[1..], c, with, x);
      assert s == [s[0]] + s[1..];
    }
  }

  lemma EscapedChars(s: string, x: char)
    requires x != '\\' && x != '"'
    ensures x in ScalarCodec.Escape(s) <==> x in s
  {
    ReplacedChars(s, '\\', "\\\\", x);
    ReplacedChars(ScalarCodec.ReplaceChar(s, '\\', "\\\\"), '"', "\\\"", x);
    hide ScalarCodec.ReplaceChar;
  }

  lemma EmittedChars(s: string, x: char)
    requires x != '\\' && x != '"'
    ensures x in Emit(s) <==> x in s
  {
    EscapedChars(s, x);
    hide ScalarCodec.Escape, NeedsQuoting;
  }

  lemma {:induction false} ReplaceNothing(s: string, c: char, with: string)
    requires c !in s
    ensures ScalarCodec.ReplaceChar(s, c, with) == s
  {
    if s != "" {
      ReplaceNothing(s[1..], c, with);
      assert s == [s[0]] + s[1..];
    }
  }

  lemma EscapeNothing(s: string)
    requires '\\' !in s && '"' !in s
    ensures ScalarCodec.Escape(s) == s
  {
    ReplaceNothing(s, '\\', "\\\\");
    ReplaceNothing(s, '"', "\\\"");
    hide ScalarCodec.ReplaceChar;
  }

  lemma {:induction false} ReplaceKeepsLength(s: string, c: char, with: string)
    requires |with| >= 1
    ensures |ScalarCodec.ReplaceChar(s, c, with)| >= |s|
  {
    if s != "" { ReplaceKeepsLength(s[1..], c, with); }
  }

  lemma {:induction false} LowerAt(s: string, i: nat)
    requires i < |s|
    ensures Lower(s)[i] == LowerChar(s[i])
  {
    if i > 0 { LowerAt(s[1..], i - 1); }
  }

  lemma LowersTo(s: string, t: string)
    requires |s| == |t| && forall i :: 0 <= i < |s| ==> LowerChar(s[i]) == t[i]
    ensures Lower(s) == t
  {
    forall i | 0 <= i < |s| ensures Lower(s)[i] == t[i] { LowerAt(s, i); }
  }

  /** The words that the reader takes for something else are quoted when printed. */
  lemma KeywordsQuoted(s: string)
    requires s == "null" || IsFlagWord(s)
    ensures NeedsQuoting(s)
  {
    var t := if s == "null" then "null" else if s == "true" || s == "True" then "true" else "false";
    LowersTo(s, t);
    StripKeeps(t);
    assert IsKeyword(t);
    hide Lower, Strip, IsKeyword, IsSpecial, IsLeading;
  }

  lemma DigitIsPlain(c: char)
    requires IsDigitChar(c)
    ensures !IsSpecial(c) && !IsLeading(c) && c != ' ' && c != '\t' && !('a' <= c <= 'z') && !('A' <= c <= 'Z')
  {
    hide InDecimalRow, InDigitRange;
  }

  lemma NoDigits(s: string)
    requires s == "" || IsLeading(s[0]) || IsSpecial(s[0]) || 'a' <= s[0] <= 'z' || 'A' <= s[0] <= 'Z' || s[0] == ' '
    ensures !IsDigits(s)
  {
    if IsDigits(s) { DigitIsPlain(s[0]); }
    hide IsDigitChar, IsSpecial, IsLeading;
  }

  /** What a text that starts in none of these ways is read as. */
  lemma CoerceWords(v: string)
    requires v != "" && Stripped(v) && !IsDigits(v)
    requires v[0] != 'n' && v[0] != 't' && v[0] != 'T' && v[0] != 'f' && v[0] != 'F' && v[0] != '-'
    requires v[0] != '"' && v[0] != '[' && v[0] != '{'
    ensures Coerce(v) == Some(Words(v))
  {
    StripKeeps(v);
    NoWord(v);
    NoShape(v);
    hide Strip, Stripped, IsDigits, IsCountable, IsFlagWord;
  }

  /** A quoted text reads as the escaped text. */
  lemma CoerceQuoted(t: string)
    ensures Coerce("\"" + t + "\"") == Some(Words(t))
  {
    var v := "\"" + t + "\"";
    assert v[0] == '"' && v[|v| - 1] == '"' && v[1..|v| - 1] == t && |v| >= 2;
    StripKeeps(v);
    NoDigits(v);
    NoWord(v);
    hide Strip, Stripped, IsDigits, IsFlagWord, IsCountable;
  }

  lemma NoWord(v: string)
    requires v != "" && v[0] != 'n' && v[0] != 't' && v[0] != 'T' && v[0] != 'f' && v[0] != 'F'
    ensures v != "null" && !IsFlagWord(v)
  {
  }

  lemma NoShape(v: string)
    requires v != "" && v[0] != '-' && v[0] != '[' && v[0] != '{'
    ensures v != "[]" && v != "{}" && !("- " <= v)
  {
  }

  /** What a printed text reads as: a number if it is all digits, if it reads at all; text in all other cases. */
  lemma CoerceEmitted(s: string)
    requires s != "" && Stripped(s)
    ensures IsDigits(s) ==> Coerce(Emit(s)) == if IsCountable(s) then Some(Number(NumberOf(s))) else None
    ensures !IsDigits(s) ==> Coerce(Emit(s)) == Some(Words(if NeedsQuoting(s) then ScalarCodec.Escape(s) else s))
  {
    if IsDigits(s) {
      DigitsUnquoted(s);
      CoerceDigits(s);
    } else if NeedsQuoting(s) {
      CoerceQuoted(ScalarCodec.Escape(s));
    } else {
      CoercePlain(s);
    }
    hide Coerce, Stripped, ScalarCodec.Escape, IsDigits, NeedsQuoting;
  }

  lemma CoerceDigits(s: string)
    requires IsDigits(s) && Stripped(s)
    ensures Coerce(s) == if IsCountable(s) then Some(Number(NumberOf(s))) else None
  {
    StripKeeps(s);
    DigitIsPlain(s[0]);
    hide Strip, IsDigitChar, IsSpecial, IsCountable;
  }

  lemma CoercePlain(s: string)
    requires s != "" && Stripped(s) && !IsDigits(s) && !NeedsQuoting(s)
    ensures Coerce(s) == Some(Words(s))
  {
    StripKeeps(s);
    assert s[0] != '-' && s[0] != '"' && s[0] != '[' && s[0] != '{' by {
      assert !IsLeading(s[0]);
    }
    hide Strip, IsDigits, NeedsQuoting, Stripped, IsLeading;
    NoShape(s);
    if s == "null" || IsFlagWord(s) { KeywordsQuoted(s); }
    hide IsCountable, IsFlagWord;
  }

  lemma DigitsUnquoted(s: string)
    requires IsDigits(s)
    ensures !NeedsQuoting(s)
  {
    forall i | 0 <= i < |s| ensures !IsSpecial(s[i]) { DigitIsPlain(s[i]); }
    DigitIsPlain(s[0]);
    DigitIsPlain(s[|s| - 1]);
    DigitsAreNoKeyword(s);
    hide Strip, Lower, IsDigitChar, IsSpecial, IsLeading, IsSpace, IsKeyword;
  }

  lemma DigitsAreNoKeyword(s: string)
    requires IsDigits(s)
    ensures !IsKeyword(Strip(Lower(s)))
  {
    var low := Lower(s);
    forall c | c in low ensures !('a' <= c <= 'z') {
      var i :| 0 <= i < |low| && low[i] == c;
      LowerAt(s, i);
      DigitIsPlain(s[i]);
    }
    StripMeans(low);
    hide Strip, Lower, IsDigitChar, IsSpecial, IsLeading, IsSpace, IsDigits;
    var word := Strip(low);
    assert word != "" ==> word[0] in word;
  }

  // ---- Names ------------------------------------------------------------------------------------------------------

  predicate IsNameText(s: string) { s != "" && forall i :: 0 <= i < |s| ==> 'a' <= s[i] <= 'z' || s[i] == '_' }

  datatype Mark = Mark(length: nat, first: char, last: char)

  /** Length, first and last letter tell the keys apart. */
  function Signature(k: Key): Mark {
    match k
    case AcceptedCommitKey => Mark(15, 'a', 't')
    case ActorRoleKey => Mark(13, 'a', 'd')
    case AttemptKey => Mark(7, 'a', 't')
    case DispatchIdKey => Mark(11, 'd', 'd')
    case EquivalenceEvidenceKey => Mark(24, 'e', 'f')
    case EquivalenceMethodKey => Mark(18, 'e', 'd')
    case EquivalenceResultKey => Mark(18, 'e', 't')
    case EventIdKey => Mark(8, 'e', 'd')
    case EventTypeKey => Mark(10, 'e', 'e')
    case EvidenceRefsKey => Mark(13, 'e', 's')
    case FailureKindKey => Mark(12, 'f', 'd')
    case FromStateKey => Mark(10, 'f', 'e')
    case GuardResultsKey => Mark(13, 'g', 's')
    case IntegratedCommitKey => Mark(17, 'i', 't')
    case LeaseEpochKey => Mark(11, 'l', 'h')
    case OccurredAtKey => Mark(11, 'o', 't')
    case PayloadDigestKey => Mark(14, 'p', 't')
    case RevisionKey => Mark(8, 'r', 'n')
    case SchemaVersionKey => Mark(14, 's', 'n')
    case SourceMessageKey => Mark(17, 's', 'd')
    case TaskIdKey => Mark(7, 't', 'd')
    case ToStateKey => Mark(8, 't', 'e')
  }

  function Signed(m: Mark): Key {
    if m.length == 7 then (if m.first == 'a' then AttemptKey else TaskIdKey)
    else if m.length == 8 then (if m.first == 'e' then EventIdKey else if m.first == 'r' then RevisionKey else ToStateKey)
    else if m.length == 10 then (if m.first == 'e' then EventTypeKey else FromStateKey)
    else if m.length == 11 then (if m.first == 'd' then DispatchIdKey else if m.first == 'l' then LeaseEpochKey else OccurredAtKey)
    else if m.length == 12 then FailureKindKey
    else if m.length == 13 then (if m.first == 'a' then ActorRoleKey else if m.first == 'e' then EvidenceRefsKey else GuardResultsKey)
    else if m.length == 14 then (if m.first == 'p' then PayloadDigestKey else SchemaVersionKey)
    else if m.length == 15 then AcceptedCommitKey
    else if m.length == 17 then (if m.first == 'i' then IntegratedCommitKey else SourceMessageKey)
    else if m.length == 18 then (if m.last == 'd' then EquivalenceMethodKey else EquivalenceResultKey)
    else EquivalenceEvidenceKey
  }

  predicate HasShape(k: Key) {
    && IsNameText(Name(k)) && 'a' <= Name(k)[0] && Name(k)[|Name(k)| - 1] != '_'
    && Mark(|Name(k)|, Name(k)[0], Name(k)[|Name(k)| - 1]) == Signature(k)
  }

  lemma EarlyNames(k: Key)
    requires k.AcceptedCommitKey? || k.ActorRoleKey? || k.AttemptKey? || k.DispatchIdKey?
    ensures HasShape(k)
  {
  }

  lemma EquivalenceEvidenceNames(k: Key)
    requires k.EquivalenceEvidenceKey?
    ensures HasShape(k)
  {
  }

  lemma EquivalenceNames(k: Key)
    requires k.EquivalenceMethodKey? || k.EquivalenceResultKey?
    ensures HasShape(k)
  {
  }

  lemma EventNames(k: Key)
    requires k.EventIdKey? || k.EventTypeKey? || k.EvidenceRefsKey?
    ensures HasShape(k)
  {
  }

  lemma FailureNames(k: Key)
    requires k.FailureKindKey? || k.FromStateKey?
    ensures HasShape(k)
  {
  }

  lemma GuardNames(k: Key)
    requires k.GuardResultsKey? || k.IntegratedCommitKey?
    ensures HasShape(k)
  {
  }

  lemma LeaseNames(k: Key)
    requires k.LeaseEpochKey? || k.OccurredAtKey?
    ensures HasShape(k)
  {
  }

  lemma PayloadNames(k: Key)
    requires k.PayloadDigestKey? || k.RevisionKey?
    ensures HasShape(k)
  {
  }

  lemma SchemaNames(k: Key)
    requires k.SchemaVersionKey? || k.SourceMessageKey?
    ensures HasShape(k)
  {
  }

  lemma LastNames(k: Key)
    requires k.TaskIdKey? || k.ToStateKey?
    ensures HasShape(k)
  {
  }

  lemma NameShape(k: Key)
    ensures HasShape(k)
  {
    hide HasShape;
    if k.AcceptedCommitKey? || k.ActorRoleKey? || k.AttemptKey? || k.DispatchIdKey? {
      EarlyNames(k);
    } else if k.EquivalenceEvidenceKey? {
      EquivalenceEvidenceNames(k);
    } else if k.EquivalenceMethodKey? || k.EquivalenceResultKey? {
      EquivalenceNames(k);
    } else if k.EventIdKey? || k.EventTypeKey? || k.EvidenceRefsKey? {
      EventNames(k);
    } else if k.FailureKindKey? || k.FromStateKey? {
      FailureNames(k);
    } else if k.GuardResultsKey? || k.IntegratedCommitKey? {
      GuardNames(k);
    } else if k.LeaseEpochKey? || k.OccurredAtKey? {
      LeaseNames(k);
    } else if k.PayloadDigestKey? || k.RevisionKey? {
      PayloadNames(k);
    } else if k.SchemaVersionKey? || k.SourceMessageKey? {
      SchemaNames(k);
    } else {
      LastNames(k);
    }
  }

  lemma SignedSignature(k: Key)
    ensures Signed(Signature(k)) == k
  {
  }

  lemma NameInjective(k: Key, l: Key)
    requires Name(k) == Name(l)
    ensures k == l
  {
    NameShape(k);
    NameShape(l);
    SignedSignature(k);
    SignedSignature(l);
    hide IsNameText, Name, Signature, Signed;
  }

  lemma {:induction false} FindByName(k: Key, keys: seq<Key>)
    requires k in keys
    ensures Find(Name(k), keys) == Some(k)
  {
    if Name(keys[0]) == Name(k) {
      NameInjective(keys[0], k);
    } else {
      FindByName(k, keys[1..]);
    }
    hide Name;
  }

  lemma FindName(k: Key)
    ensures Find(Name(k), KEYS) == Some(k)
  {
    AllKeys(k);
    FindByName(k, KEYS);
    hide Name, Find;
  }

  lemma AllKeys(k: Key)
    ensures k in KEYS
  {
  }

  /** No key starts with a dash. */
  lemma FindNone(s: string)
    requires s == "" || s[0] == '-'
    ensures Find(s, KEYS) == None
  {
    var k := Find(s, KEYS);
    if k.Some? { NameShape(k.value); }
    hide Name, Find;
  }

  // ---- Entries ----------------------------------------------------------------------------------------------------

  lemma NameIsEntry(s: string)
    requires IsNameText(s) && s[|s| - 1] != '_' && 'a' <= s[0]
    ensures ':' !in s && '\n' !in s && Stripped(s) && !IsSpace(s[0]) && s[0] != ' '
  {
  }

  /** The line of a key that holds one value. */
  lemma ReadNamed(s: Reading, k: Key, text: string)
    requires k != GuardResultsKey && Strip(text) != ""
    ensures ReadLine(s, Entry(Name(k), text)) ==
      match Coerce(text) case None => None case Some(v) => Some(s.(top := s.top[k := v]))
  {
    var line := Entry(Name(k), text);
    NamedIsEntry(k, text);
    FindName(k);
    CoerceStripped(text);
    hide Name, Find, Partition, Strip, Coerce, IsBlank, IsEntry;
    assert ReadLine(s, line) == ReadEntry(s, line);
  }

  lemma CoerceStripped(text: string)
    ensures Coerce(Strip(text)) == Coerce(text)
  {
    StripMeans(text);
    hide Strip, Stripped, IsFlagWord, IsDigits, IsCountable;
  }

  lemma NamedIsEntry(k: Key, text: string)
    ensures var line := Entry(Name(k), text);
      Partition(line) == (Name(k), Strip(text)) && IsEntry(line) && !IsBlank(line)
  {
    var name, line := Name(k), Entry(Name(k), text);
    NameShape(k);
    NameIsEntry(name);
    hide Name, IsNameText, Signature;
    PartitionEntry(name, text);
    assert line[0] == name[0];
    StripStops(line, 0);
    hide Partition, Stripped, Strip, IsSpace;
  }

  /** A line with a colon whose key is unknown. */
  lemma ReadUnknown(s: Reading, line: string)
    requires IsEntry(line) && line[0] == '-'
    ensures ReadLine(s, line).None? || ReadLine(s, line) == Some(s.(extra := true))
  {
    var n := Colon(line);
    var front := line[..n];
    assert front[0] == '-';
    StripStops(front, 0);
    FindNone(Strip(front));
    hide Strip, Find, Coerce;
  }

  lemma {:induction false} ReadConcat(s: Reading, a: seq<string>, b: seq<string>)
    ensures ReadLines(s, a + b) == match ReadLines(s, a) case None => None case Some(t) => ReadLines(t, b)
    decreases |a|
  {
    hide ReadLine;
    if a == [] {
      assert a + b == b;
    } else {
      assert (a + b)[0] == a[0] && (a + b)[1..] == a[1..] + b;
      if ReadLine(s, a[0]).Some? {
        ReadConcat(ReadLine(s, a[0]).value, a[1..], b);
      }
    }
  }

  lemma {:induction false} ReadQuiet(s: Reading, lines: seq<string>)
    requires s.guards == [] && forall line :: line in lines ==> !IsEntry(line)
    ensures ReadLines(s, lines) == Some(s)
    decreases |lines|
  {
    hide IsEntry;
    if lines != [] {
      assert lines[0] in lines;
      ReadQuiet(s, lines[1..]);
    }
  }

  /** A spurious entry stays. */
  lemma {:induction false} ExtraStays(s: Reading, lines: seq<string>)
    requires s.extra
    ensures ReadLines(s, lines).Some? ==> ReadLines(s, lines).value.extra
    decreases |lines|
  {
    if lines != [] {
      LineKeepsExtra(s, lines[0]);
      hide ReadLine;
      if ReadLine(s, lines[0]).Some? { ExtraStays(ReadLine(s, lines[0]).value, lines[1..]); }
    }
  }

  lemma LineKeepsExtra(s: Reading, line: string)
    requires s.extra
    ensures ReadLine(s, line).Some? ==> ReadLine(s, line).value.extra
  {
    hide Coerce, Partition, Find, ReadGuardLine, IsBlank;
  }

  /** A document with a spurious line is never read as it was meant. */
  lemma {:induction false} SpuriousLine(s: Reading, lines: seq<string>, i: nat)
    requires i < |lines| && IsEntry(lines[i]) && lines[i][0] == '-'
    ensures ReadLines(s, lines).Some? ==> ReadLines(s, lines).value.extra
    decreases i
  {
    hide ReadLine, IsEntry;
    if i == 0 {
      ReadUnknown(s, lines[0]);
      if ReadLine(s, lines[0]).Some? { ExtraStays(ReadLine(s, lines[0]).value, lines[1..]); }
    } else if ReadLine(s, lines[0]).Some? {
      SpuriousLine(ReadLine(s, lines[0]).value, lines[1..], i - 1);
    }
  }

  // ---- Splitting --------------------------------------------------------------------------------------------------

  lemma SplitNoFeed(a: string)
    requires '\n' !in a
    ensures LineCodec.Split(a) == [a]
  {
    LineCodec.SplitLine(a, "");
  }

  lemma {:induction false} SplitFront(a: string, x: string)
    requires '\n' !in a
    ensures LineCodec.Split(a + x) == [a + LineCodec.Split(x)[0]] + LineCodec.Split(x)[1..]
  {
    var first, rest := LineCodec.Split(x)[0], LineCodec.Split(x)[1..];
    if a == "" {
      assert a + x == x && a + first == first && [first] + rest == LineCodec.Split(x);
    } else {
      assert (a + x)[0] == a[0] && (a + x)[1..] == a[1..] + x;
      SplitFront(a[1..], x);
      assert ([a[1..] + first] + rest)[1..] == rest;
      assert [a[0]] + (a[1..] + first) == a + first;
    }
  }

  lemma {:induction false} SplitConcat(a: string, b: string)
    ensures LineCodec.Split(a + "\n" + b) == LineCodec.Split(a) + LineCodec.Split(b)
  {
    var s := a + "\n" + b;
    if a == "" {
      assert s[0] == '\n' && s[1..] == b;
    } else {
      assert s[0] == a[0] && s[1..] == a[1..] + "\n" + b;
      SplitConcat(a[1..], b);
    }
  }

  lemma {:induction false} SplitLines(ls: seq<string>)
    requires ls != [] && forall l :: l in ls ==> '\n' !in l
    ensures LineCodec.Split(Lines(ls)) == ls
  {
    SplitNoFeed(ls[0]);
    if |ls| > 1 {
      SplitLines(ls[1..]);
      SplitConcat(ls[0], Lines(ls[1..]));
    }
  }

  /** The lines of a list of blocks. */
  function Flat(blocks: seq<string>): seq<string> {
    if blocks == [] then [] else LineCodec.Split(blocks[0]) + Flat(blocks[1..])
  }

  lemma {:induction false} SplitBlocks(blocks: seq<string>)
    ensures LineCodec.Split(LineCodec.Join(blocks)) == Flat(blocks) + [""]
  {
    if blocks != [] {
      SplitBlocks(blocks[1..]);
      SplitConcat(blocks[0], LineCodec.Join(blocks[1..]));
      assert blocks[0] + "\n" + LineCodec.Join(blocks[1..]) == LineCodec.Join(blocks);
      hide LineCodec.Split;
    }
  }
}
