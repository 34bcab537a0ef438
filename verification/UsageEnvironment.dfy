/** The log splitter (src/rtsp/NtUsageEnvironment.cpp): text is gathered in a fixed buffer
    behind a moving pointer, and leaves it a message at a time. */
module UsageEnvironment {
  import opened CStrings
  import opened Decimal

  const BUFFER_SIZE: nat := 1024
  const THRESHOLD: nat := 128
  const LIMIT: nat := BUFFER_SIZE - THRESHOLD

  // ----- what the output should be

  /** The messages logged so far and the text still waiting. */
  datatype Lines = Lines(messages: seq<string>, pending: string)

  function Check(l: Lines): Lines {
    if |l.pending| > LIMIT then Lines(l.messages + [l.pending], "") else l
  }

  function Put(l: Lines, c: char): Lines {
    if c == '\n' then Lines(l.messages + [l.pending], "") else Check(Lines(l.messages, l.pending + [c]))
  }

  function PutAll(l: Lines, text: string): Lines {
    if text == [] then l else Put(PutAll(l, text[..|text| - 1]), text[|text| - 1])
  }

  /** A printed number is never split. */
  function PutToken(l: Lines, token: string): Lines {
    Check(Lines(l.messages, l.pending + token))
  }

  /** What printing a number must do: up to 896 characters wait, more are sent at once. */
  ghost predicate Sends(l: Lines, token: string, l': Lines) {
    if |l.pending| + |token| <= 896 then l' == Lines(l.messages, l.pending + token)
    else l' == Lines(l.messages + [l.pending + token], "")
  }

  lemma NullName()
    ensures CString("(NULL)" + [NUL]) == "(NULL)"
  {
    CStringIs("(NULL)" + [NUL], 6);
  }

  lemma PutNothing(l: Lines)
    ensures PutAll(l, []) == l
  {
  }

  lemma PutNext(l: Lines, text: string, n: nat)
    requires n < |text|
    ensures PutAll(l, text[..n + 1]) == Put(PutAll(l, text[..n]), text[n])
  {
    assert text[..n + 1][..n] == text[..n];
  }

  // ----- the buffer

  class Environment {
    const buffer: array<char>
    var offset: nat              // ptr - buffer
    var messages: seq<string>    // what has gone to the log

    ghost predicate Valid()
      reads this, buffer
    {
      buffer.Length == BUFFER_SIZE && offset <= LIMIT && NUL !in buffer[..offset]
    }

    ghost function Output(): Lines
      reads this, buffer
      requires Valid()
    {
      Lines(messages, buffer[..offset])
    }

    constructor ()
      ensures Valid() && fresh(buffer) && buffer.Length == 1024 && Output() == Lines([], [])
    {
      buffer := new char[BUFFER_SIZE];
      offset := 0;
      messages := [];
    }

    method Flush()
      requires buffer.Length == BUFFER_SIZE && offset < BUFFER_SIZE && NUL !in buffer[..offset]
      modifies this, buffer
      ensures Valid() && Output() == Lines(old(messages) + [old(buffer[..offset])], [])
    {
      buffer[offset] := NUL;
      CStringIs(buffer[..], offset);
      messages := messages + [CString(buffer[..])];
      offset := 0;
      assert buffer[..offset] == [];
    }

    method CheckLimit()
      requires buffer.Length == BUFFER_SIZE && offset < BUFFER_SIZE && NUL !in buffer[..offset]
      modifies this, buffer
      ensures Valid() && Output() == Check(Lines(old(messages), old(buffer[..offset])))
      ensures offset == (if old(offset) > 896 then 0 else old(offset))
    {
      if offset > LIMIT {
        Flush();
      }
    }

    method PutChar(c: char)
      requires Valid() && c != NUL
      modifies this, buffer
      ensures Valid() && Output() == Put(old(Output()), c)
    {
      if c == '\n' {
        Flush();
      } else {
        ghost var before := buffer[..offset];
        buffer[offset] := c;
        offset := offset + 1;
        assert buffer[..offset] == before + [c];
        CheckLimit();
      }
    }

    /** operator<< for strings; a null pointer prints a name for itself. */
    method WriteString(str: array?<char>)
      requires Valid() && (str != null ==> NUL in str[..] && str != buffer)
      modifies this, buffer
      ensures Valid()
      ensures Output() == PutAll(old(Output()), if str == null then "(NULL)" else CString(str[..]))
    {
      hide CString, PutAll;
      var text := if str == null then "(NULL)" + [NUL] else str[..];
      ghost var content := CString(text);
      if str == null {
        NullName();
      }
      Terminated(text);
      var num := 0;
      PutNothing(old(Output()));
      assert content[..0] == [];
      while text[num] != NUL
        invariant num <= |content|
        invariant Valid() && Output() == PutAll(old(Output()), content[..num])
        decreases |content| - num
      {
        assert num < |content| && text[num] == content[num];
        PutNext(old(Output()), content, num);
        PutChar(text[num]);
        num := num + 1;
      }
      CStringEnds(text, num);
      assert content[..num] == content;
    }

    /** sprintf at the pointer: the characters and their terminator must fit. */
    method Print(token: string)
      requires Valid() && |token| < THRESHOLD && NUL !in token
      modifies this, buffer
      ensures Valid() && Output() == PutToken(old(Output()), token)
      ensures Sends(old(Output()), token, Output())
    {
      ghost var before := buffer[..offset];
      var i := 0;
      while i < |token|
        invariant i <= |token| && offset == old(offset) && messages == old(messages)
        invariant buffer[..offset + i] == before + token[..i]
      {
        buffer[offset + i] := token[i];
        i := i + 1;
        assert token[..i] == token[..i - 1] + [token[i - 1]];
        assert buffer[..offset + i] == buffer[..offset + i - 1] + [token[i - 1]];
      }
      buffer[offset + i] := NUL;
      offset := offset + i;
      assert token[..i] == token;
      assert buffer[..offset] == before + token;
      CheckLimit();
    }

    method WriteInt(i: int32)
      requires Valid()
      modifies this, buffer
      ensures Valid() && Output() == PutToken(old(Output()), IntText(i))
      ensures Sends(old(Output()), IntText(i), Output())
    {
      Int32Length(i);
      Print(IntText(i));
    }

    method WriteUnsigned(u: uint32)
      requires Valid()
      modifies this, buffer
      ensures Valid() && Output() == PutToken(old(Output()), NatText(u))
      ensures Sends(old(Output()), NatText(u), Output())
    {
      Uint32Length(u);
      Print(NatText(u));
    }
  }

  // ----- how the text is cut into calls does not matter

  lemma {:induction false} PutAllAppend(l: Lines, a: string, b: string)
    ensures PutAll(l, a + b) == PutAll(PutAll(l, a), b)
  {
    if b == [] {
      assert a + b == a;
    } else {
      var n := |b| - 1;
      assert (a + b)[..|a + b| - 1] == a + b[..n];
      PutAllAppend(l, a, b[..n]);
    }
  }

  function Concat(parts: seq<string>): string {
    if parts == [] then [] else Concat(parts[..|parts| - 1]) + parts[|parts| - 1]
  }

  function PutParts(l: Lines, parts: seq<string>): Lines {
    if parts == [] then l else PutAll(PutParts(l, parts[..|parts| - 1]), parts[|parts| - 1])
  }

  /** Calls with the parts of a text print what one call with all of it prints. */
  lemma {:induction false} CutsDoNotMatter(l: Lines, parts: seq<string>)
    ensures PutParts(l, parts) == PutAll(l, Concat(parts))
  {
    if parts != [] {
      var n := |parts| - 1;
      CutsDoNotMatter(l, parts[..n]);
      PutAllAppend(l, Concat(parts[..n]), parts[n]);
    }
  }

  // ----- the messages in closed form

  const WIDTH: nat := LIMIT + 1

  /** The full-width pieces of a line, in order; the rest of it waits. */
  function Pieces(line: string): seq<string> {
    seq(|line| / WIDTH, (i: nat) requires i < |line| / WIDTH => line[i * WIDTH..(i + 1) * WIDTH])
  }

  function Rest(line: string): string {
    line[|line| / WIDTH * WIDTH..]
  }

  function FirstNewline(text: string): (n: nat)
    ensures n <= |text| && '\n' !in text[..n]
    ensures n < |text| ==> text[n] == '\n'
  {
    if text == [] || text[0] == '\n' then 0
    else
      var n := FirstNewline(text[1..]);
      assert text[..n + 1] == [text[0]] + text[1..][..n];
      n + 1
  }

  /** Every line in pieces of 897 characters, what is left of it sent by its newline, even
      when nothing is left; the last line's rest is still waiting. */
  function Split(text: string): Lines
    decreases |text|
  {
    var n := FirstNewline(text);
    var line := text[..n];
    if n == |text| then Lines(Pieces(line), Rest(line))
    else
      var later := Split(text[n + 1..]);
      Lines(Pieces(line) + [Rest(line)] + later.messages, later.pending)
  }

  lemma PiecesGrow(line: string, c: char)
    ensures |Rest(line)| < WIDTH
    ensures if |Rest(line)| + 1 == WIDTH
            then Pieces(line + [c]) == Pieces(line) + [Rest(line) + [c]] && Rest(line + [c]) == []
            else Pieces(line + [c]) == Pieces(line) && Rest(line + [c]) == Rest(line) + [c]
  {
    var n, q := |line|, |line| / WIDTH;
    var next := line + [c];
    assert n == q * WIDTH + n % WIDTH;
    if n % WIDTH + 1 == WIDTH {
      assert |next| == (q + 1) * WIDTH && |next| / WIDTH == q + 1;
      assert next[q * WIDTH..(q + 1) * WIDTH] == Rest(line) + [c];
    } else {
      assert |next| / WIDTH == q;
      assert next[q * WIDTH..] == line[q * WIDTH..] + [c];
    }
    SamePieces(line, next);
  }

  /** The pieces of a prefix are the first pieces of the whole. */
  lemma SamePieces(line: string, next: string)
    requires line <= next
    ensures |line| / WIDTH <= |next| / WIDTH
    ensures Pieces(next)[..|line| / WIDTH] == Pieces(line)
  {
    assert |line| / WIDTH <= |next| / WIDTH;
    forall i | 0 <= i < |line| / WIDTH ensures Pieces(next)[i] == Pieces(line)[i] {
      assert (i + 1) * WIDTH <= |line|;
      assert next[i * WIDTH..(i + 1) * WIDTH] == line[i * WIDTH..(i + 1) * WIDTH];
    }
  }

  lemma {:induction false} LinePieces(messages: seq<string>, line: string)
    requires '\n' !in line
    ensures PutAll(Lines(messages, []), line) == Lines(messages + Pieces(line), Rest(line))
  {
    if line == [] {
      assert messages + Pieces(line) == messages;
    } else {
      var head, c := line[..|line| - 1], line[|line| - 1];
      LinePieces(messages, head);
      PiecesGrow(head, c);
      assert line == head + [c];
      assert messages + (Pieces(head) + [Rest(head) + [c]]) == messages + Pieces(head) + [Rest(head) + [c]];
    }
  }

  lemma {:induction false} MessagesInFront(messages: seq<string>, l: Lines, text: string)
    ensures PutAll(Lines(messages + l.messages, l.pending), text)
            == Lines(messages + PutAll(l, text).messages, PutAll(l, text).pending)
  {
    if text != [] {
      var n := |text| - 1;
      MessagesInFront(messages, l, text[..n]);
      var before := PutAll(l, text[..n]);
      assert messages + (before.messages + [before.pending]) == messages + before.messages + [before.pending];
      var longer := before.pending + [text[n]];
      assert messages + (before.messages + [longer]) == messages + before.messages + [longer];
    }
  }

  /** From an empty buffer, any text prints its lines in pieces. */
  lemma {:induction false} PrintsSplit(text: string)
    ensures PutAll(Lines([], []), text) == Split(text)
    decreases |text|
  {
    var n := FirstNewline(text);
    var line := text[..n];
    LinePieces([], line);
    assert [] + Pieces(line) == Pieces(line);
    if n < |text| {
      var rest := text[n + 1..];
      assert text == (line + [text[n]]) + rest;
      assert (line + [text[n]])[..n] == line;
      PutAllAppend(Lines([], []), line + [text[n]], rest);
      var first := Pieces(line) + [Rest(line)];
      assert first + [] == first;
      MessagesInFront(first, Lines([], []), rest);
      PrintsSplit(rest);
    } else {
      assert line == text;
    }
  }

  // ----- the offset

  lemma {:induction false} PendingBound(l: Lines, text: string)
    requires |l.pending| <= LIMIT
    ensures |PutAll(l, text).pending| <= LIMIT
  {
    if text != [] {
      PendingBound(l, text[..|text| - 1]);
    }
  }

  /** A number always finds room for itself and its terminator, whatever text came before,
      exactly when it is shorter than 128 characters. */
  lemma TokenFits(length: nat)
    ensures (forall text: string :: |PutAll(Lines([], []), text).pending| + length < BUFFER_SIZE)
            <==> length < THRESHOLD
  {
    if length < THRESHOLD {
      forall text: string ensures |PutAll(Lines([], []), text).pending| + length < BUFFER_SIZE {
        PendingBound(Lines([], []), text);
      }
    } else {
      var line := seq(LIMIT, _ => 'x');
      LinePieces([], line);
      assert |PutAll(Lines([], []), line).pending| == LIMIT;
    }
  }

  /** What "%f" prints for a double that is a whole number: its sign, its digits, and six
      zeros after the point. (Negative zero also gets a sign and stays far below the bound.) */
  function FixedText(i: int): string {
    IntText(i) + ".000000"
  }

  /** A whole double is printed in fewer than 128 characters exactly when it has at most 120
      digits, or 119 and a minus sign; any other overruns the buffer behind some text. */
  lemma LargeDoublesOverrun(i: int)
    ensures |FixedText(i)| < THRESHOLD <==> (if i < 0 then -i < Pow10(119) else i < Pow10(120))
    ensures (if i < 0 then -i >= Pow10(119) else i >= Pow10(120)) ==>
              exists text: string :: |PutAll(Lines([], []), text).pending| + |FixedText(i)| >= BUFFER_SIZE
  {
    hide Pow10, NatText;
    NatTextLengthIs(Magnitude(i), if i < 0 then 119 else 120);
    TokenFits(|FixedText(i)|);
  }

  // ----- strings and numbers mixed

  /** What is written with one operator<<. */
  datatype Piece = Text(text: string) | Number(token: string)

  /** What cannot be split: a newline, another character, a number. */
  datatype Atom = Break | Ink(text: string)

  function AtomsOf(piece: Piece): seq<Atom> {
    match piece
    case Text(text) => seq(|text|, k requires 0 <= k < |text| => if text[k] == '\n' then Break else Ink([text[k]]))
    case Number(token) => [Ink(token)]
  }

  function AllAtoms(pieces: seq<Piece>): seq<Atom> {
    if pieces == [] then [] else AllAtoms(pieces[..|pieces| - 1]) + AtomsOf(pieces[|pieces| - 1])
  }

  function TextOf(atoms: seq<Atom>): string {
    if atoms == [] then []
    else
      var n := |atoms| - 1;
      TextOf(atoms[..n]) + (if atoms[n].Break? then [] else atoms[n].text)
  }

  /** A message ends at a newline, or with the atom that takes it over 896 characters. */
  predicate IsMessage(atoms: seq<Atom>) {
    atoms != [] && (atoms[|atoms| - 1].Break? || |TextOf(atoms)| > 896)
  }

  /** The messages are the texts of consecutive parts of the output, each ended where a message
      ends and nowhere before; what is left after the last has not come to an end yet. */
  ghost predicate IsOutput(atoms: seq<Atom>, parts: seq<seq<Atom>>, rest: seq<Atom>, l: Lines) {
    && atoms == Flat(parts) + rest
    && (forall k | 0 <= k < |parts| :: IsMessage(parts[k]) && Unfinished(parts[k][..|parts[k]| - 1]))
    && Unfinished(rest)
    && |l.messages| == |parts| && (forall k | 0 <= k < |parts| :: l.messages[k] == TextOf(parts[k]))
    && l.pending == TextOf(rest)
  }

  ghost predicate Unfinished(atoms: seq<Atom>) {
    forall n | 0 < n <= |atoms| :: !IsMessage(atoms[..n])
  }

  function Flat(parts: seq<seq<Atom>>): seq<Atom> {
    if parts == [] then [] else Flat(parts[..|parts| - 1]) + parts[|parts| - 1]
  }

  function PutPiece(l: Lines, piece: Piece): Lines {
    match piece
    case Text(text) => PutAll(l, text)
    case Number(token) => PutToken(l, token)
  }

  function PutPieces(l: Lines, pieces: seq<Piece>): Lines {
    if pieces == [] then l else PutPiece(PutPieces(l, pieces[..|pieces| - 1]), pieces[|pieces| - 1])
  }

  function PutAtom(l: Lines, atom: Atom): Lines {
    if atom.Break? then Lines(l.messages + [l.pending], "") else PutToken(l, atom.text)
  }

  /** One more atom leaves the output split as it must be. */
  lemma OneMore(atoms: seq<Atom>, parts: seq<seq<Atom>>, rest: seq<Atom>, l: Lines, atom: Atom)
    returns (parts': seq<seq<Atom>>, rest': seq<Atom>)
    requires IsOutput(atoms, parts, rest, l)
    ensures IsOutput(atoms + [atom], parts', rest', PutAtom(l, atom))
  {
    var longer := rest + [atom];
    assert longer[..|rest|] == rest;
    assert TextOf(longer) == TextOf(rest) + (if atom.Break? then [] else atom.text);
    if IsMessage(longer) {
      parts', rest' := parts + [longer], [];
      assert parts'[..|parts|] == parts;
      assert atoms + [atom] == Flat(parts') + rest';
    } else {
      parts', rest' := parts, longer;
      StillUnfinished(rest, atom);
    }
  }

  lemma StillUnfinished(rest: seq<Atom>, atom: Atom)
    requires Unfinished(rest) && !IsMessage(rest + [atom])
    ensures Unfinished(rest + [atom])
  {
    hide IsMessage;
    var longer := rest + [atom];
    forall n | 0 < n <= |longer| ensures !IsMessage(longer[..n]) {
      if n <= |rest| {
        assert longer[..n] == rest[..n];
      } else {
        assert longer[..n] == longer;
      }
    }
  }

  function PutAtoms(l: Lines, atoms: seq<Atom>): Lines {
    if atoms == [] then l else PutAtom(PutAtoms(l, atoms[..|atoms| - 1]), atoms[|atoms| - 1])
  }

  lemma {:induction false} AtomsAppend(l: Lines, a: seq<Atom>, b: seq<Atom>)
    ensures PutAtoms(l, a + b) == PutAtoms(PutAtoms(l, a), b)
  {
    if b == [] {
      assert a + b == a;
    } else {
      var n := |b| - 1;
      assert (a + b)[..|a + b| - 1] == a + b[..n];
      AtomsAppend(l, a, b[..n]);
    }
  }

  lemma {:induction false} TextAtoms(l: Lines, text: string)
    ensures PutAtoms(l, AtomsOf(Text(text))) == PutAll(l, text)
  {
    if text != [] {
      var n := |text| - 1;
      TextAtoms(l, text[..n]);
      assert AtomsOf(Text(text))[..n] == AtomsOf(Text(text[..n]));
    }
  }

  lemma {:induction false} PiecesAtoms(l: Lines, pieces: seq<Piece>)
    ensures PutAtoms(l, AllAtoms(pieces)) == PutPieces(l, pieces)
  {
    if pieces != [] {
      var n := |pieces| - 1;
      PiecesAtoms(l, pieces[..n]);
      AtomsAppend(l, AllAtoms(pieces[..n]), AtomsOf(pieces[n]));
      match pieces[n]
      case Text(text) => TextAtoms(PutPieces(l, pieces[..n]), text);
      case Number(token) =>
        assert AtomsOf(pieces[n])[..0] == [];
    }
  }

  lemma {:induction false} AtomsOutput(atoms: seq<Atom>) returns (parts: seq<seq<Atom>>, rest: seq<Atom>)
    ensures IsOutput(atoms, parts, rest, PutAtoms(Lines([], []), atoms))
  {
    if atoms == [] {
      parts, rest := [], [];
    } else {
      var n := |atoms| - 1;
      parts, rest := AtomsOutput(atoms[..n]);
      parts, rest := OneMore(atoms[..n], parts, rest, PutAtoms(Lines([], []), atoms[..n]), atoms[n]);
      assert atoms == atoms[..n] + [atoms[n]];
    }
  }

  lemma {:induction false} FlatFront(part: seq<Atom>, parts: seq<seq<Atom>>)
    ensures Flat([part] + parts) == part + Flat(parts)
  {
    var n := |parts| - 1;
    if parts == [] {
      assert [part] + parts == [part] && [part][..0] == [];
    } else {
      assert ([part] + parts)[..|parts|] == [part] + parts[..n];
      FlatFront(part, parts[..n]);
    }
  }

  /** The first part ends where a message ends first. */
  lemma FirstPart(atoms: seq<Atom>, parts: seq<seq<Atom>>, rest: seq<Atom>, l: Lines)
    requires IsOutput(atoms, parts, rest, l) && parts != []
    ensures var first := parts[0];
            && first != [] && first <= atoms && IsMessage(first) && Unfinished(first[..|first| - 1])
            && parts == [first] + parts[1..]
            && |l.messages| > 0 && l.messages == [TextOf(first)] + l.messages[1..]
            && IsOutput(atoms[|first|..], parts[1..], rest, Lines(l.messages[1..], l.pending))
  {
    FlatFront(parts[0], parts[1..]);
    assert parts == [parts[0]] + parts[1..];
    assert atoms == parts[0] + (Flat(parts[1..]) + rest);
  }

  lemma NoParts(atoms: seq<Atom>, rest: seq<Atom>, l: Lines)
    requires IsOutput(atoms, [], rest, l)
    ensures rest == atoms && Unfinished(atoms) && l == Lines([], TextOf(atoms))
  {
    assert Flat([]) + rest == rest;
  }

  lemma NoMessageInside(atoms: seq<Atom>, a: seq<Atom>, head: seq<Atom>)
    requires a <= atoms && head <= atoms && 0 < |a| <= |head| && Unfinished(head)
    ensures !IsMessage(a)
  {
    assert head[..|a|] == a;
  }

  /** Two first messages are one. */
  lemma SameEnd(atoms: seq<Atom>, a: seq<Atom>, b: seq<Atom>)
    requires a <= atoms && b <= atoms && IsMessage(a) && IsMessage(b)
    requires Unfinished(a[..|a| - 1]) && Unfinished(b[..|b| - 1])
    ensures a == b
  {
    if |a| < |b| {
      NoMessageInside(atoms, a, b[..|b| - 1]);
    } else if |b| < |a| {
      NoMessageInside(atoms, b, a[..|a| - 1]);
    }
  }

  lemma BothHaveParts(atoms: seq<Atom>, parts: seq<seq<Atom>>, rest: seq<Atom>, l: Lines,
                      parts': seq<seq<Atom>>, rest': seq<Atom>, l': Lines)
    requires IsOutput(atoms, parts, rest, l) && IsOutput(atoms, parts', rest', l') && parts == []
    ensures parts' == []
  {
    hide IsOutput, IsMessage;
    NoParts(atoms, rest, l);
    if parts' != [] {
      FirstPart(atoms, parts', rest', l');
      NoMessageInside(atoms, parts'[0], atoms);
    }
  }

  /** There is only one way to split an output so. */
  lemma {:induction false} OutputIsUnique(atoms: seq<Atom>, parts: seq<seq<Atom>>, rest: seq<Atom>, l: Lines,
                                          parts': seq<seq<Atom>>, rest': seq<Atom>, l': Lines)
    requires IsOutput(atoms, parts, rest, l) && IsOutput(atoms, parts', rest', l')
    ensures parts == parts' && rest == rest' && l == l'
    decreases |parts|
  {
    hide IsOutput, IsMessage, Unfinished, TextOf, Flat;
    if parts == [] || parts' == [] {
      if parts == [] {
        BothHaveParts(atoms, parts, rest, l, parts', rest', l');
      } else {
        BothHaveParts(atoms, parts', rest', l', parts, rest, l);
      }
      NoParts(atoms, rest, l);
      NoParts(atoms, rest', l');
    } else {
      FirstPart(atoms, parts, rest, l);
      FirstPart(atoms, parts', rest', l');
      SameEnd(atoms, parts[0], parts'[0]);
      OutputIsUnique(atoms[|parts[0]|..], parts[1..], rest, Lines(l.messages[1..], l.pending), parts'[1..], rest',
                     Lines(l'.messages[1..], l'.pending));
    }
  }

  /** Whatever strings and numbers are written from an empty buffer, each message ends at a
      newline or where it first exceeds 896 characters without cutting a number. */
  lemma MixedOutput(pieces: seq<Piece>)
    ensures exists parts, rest :: IsOutput(AllAtoms(pieces), parts, rest, PutPieces(Lines([], []), pieces))
  {
    var parts, rest := AtomsOutput(AllAtoms(pieces));
    PiecesAtoms(Lines([], []), pieces);
  }

  // ----- nothing is lost

  function WithoutNewlines(text: string): string {
    if text == [] then []
    else
      var n := |text| - 1;
      WithoutNewlines(text[..n]) + (if text[n] == '\n' then [] else [text[n]])
  }

  function Shown(l: Lines): string {
    Concat(l.messages) + l.pending
  }

  lemma ConcatLast(parts: seq<string>, last: string)
    ensures Concat(parts + [last]) == Concat(parts) + last
  {
    assert (parts + [last])[..|parts|] == parts;
  }

  /** The messages and the waiting text together are all that was written, newlines apart. */
  lemma {:induction false} NothingLost(l: Lines, text: string)
    ensures Shown(PutAll(l, text)) == Shown(l) + WithoutNewlines(text)
  {
    if text != [] {
      var n := |text| - 1;
      NothingLost(l, text[..n]);
      var before := PutAll(l, text[..n]);
      ConcatLast(before.messages, before.pending);
      ConcatLast(before.messages, before.pending + [text[n]]);
      assert Shown(Put(before, text[n])) == Shown(before) + (if text[n] == '\n' then [] else [text[n]]);
    }
  }

  lemma TokenNotLost(l: Lines, token: string)
    ensures Shown(PutToken(l, token)) == Shown(l) + token
  {
    hide Concat;
    var p := l.pending + token;
    ConcatLast(l.messages, p);
    assert Concat(l.messages) + p == Concat(l.messages) + l.pending + token;
    assert Concat(l.messages + [p]) + [] == Concat(l.messages) + p;
  }
}
