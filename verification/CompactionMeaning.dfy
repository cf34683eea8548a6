/** What overflow compaction does to a dialogue, with the limits written out. */
module CompactionMeaning {
  import opened Common
  import opened ToolGroups
  import opened Transcript
  import opened Excerpts
  import opened Compaction
  import opened TextMeaning

  // ---------------------------------------------------------------- what is filtered out

  /** A text of a message, or a block. */
  datatype Piece = Piece(role: Role, plain: bool, block: Block)

  function Pieces(m: Message): seq<Piece> {
    if m.content.Plain? then [Piece(m.role, true, Text(m.content.text))]
    else seq(|m.content.blocks|, i requires 0 <= i < |m.content.blocks| => Piece(m.role, false, m.content.blocks[i]))
  }

  /** A user text that is an instruction. */
  predicate Repeated(p: Piece, instructions: seq<string>) {
    p.role.User? && p.block.Text? && p.block.text in instructions
  }

  function Select(pieces: seq<Piece>, instructions: seq<string>): seq<Piece> {
    if pieces == [] then []
    else (if Repeated(pieces[0], instructions) then [] else [pieces[0]]) + Select(pieces[1..], instructions)
  }

  /** A user message of which nothing is left. */
  predicate Gone(m: Message, instructions: seq<string>) {
    m.role.User? && forall p :: p in Pieces(m) ==> Repeated(p, instructions)
  }

  /** The message without its repeated texts. */
  predicate KeptFrom(m: Message, instructions: seq<string>, n: Message) {
    && !Gone(m, instructions) && n.role == m.role && n.content.Plain? == m.content.Plain?
    && Pieces(n) == Select(Pieces(m), instructions)
  }

  predicate KeptAt(ms: seq<Message>, instructions: seq<string>, d: seq<Message>, places: seq<nat>, i: nat) {
    i < |places| == |d| && places[i] < |ms| && KeptFrom(ms[places[i]], instructions, d[i])
  }

  predicate Increasing(places: seq<nat>) { forall i, k :: 0 <= i < k < |places| ==> places[i] < places[k] }

  predicate GoneElsewhere(ms: seq<Message>, instructions: seq<string>, places: seq<nat>) {
    forall j: nat :: j < |ms| && j !in places ==> Gone(ms[j], instructions)
  }

  /** d consists of what is left of the messages at the given places; all others are gone. */
  ghost predicate KeepsAt(ms: seq<Message>, instructions: seq<string>, d: seq<Message>, places: seq<nat>) {
    && |places| == |d| && Increasing(places) && GoneElsewhere(ms, instructions, places)
    && forall i :: 0 <= i < |places| ==> KeptAt(ms, instructions, d, places, i)
  }

  ghost predicate KeepsRest(ms: seq<Message>, instructions: seq<string>, d: seq<Message>) {
    exists places :: KeepsAt(ms, instructions, d, places)
  }

  lemma {:induction false} DropTextsSelects(blocks: seq<Block>, instructions: seq<string>)
    ensures Pieces(Message(User, Blocks(DropTexts(blocks, instructions))))
            == Select(Pieces(Message(User, Blocks(blocks))), instructions)
  {
    var all := Pieces(Message(User, Blocks(blocks)));
    if blocks != [] {
      var rest := DropTexts(blocks[1..], instructions);
      DropTextsSelects(blocks[1..], instructions);
      assert all[1..] == Pieces(Message(User, Blocks(blocks[1..])));
      assert Pieces(Message(User, Blocks([blocks[0]] + rest)))
          == [Piece(User, false, blocks[0])] + Pieces(Message(User, Blocks(rest)));
    }
  }

  lemma {:induction false} SelectNothing(pieces: seq<Piece>, instructions: seq<string>)
    ensures Select(pieces, instructions) == [] <==> forall p :: p in pieces ==> Repeated(p, instructions)
  {
    if pieces != [] {
      SelectNothing(pieces[1..], instructions);
      assert pieces == [pieces[0]] + pieces[1..];
    }
  }

  lemma {:induction false} SelectAll(pieces: seq<Piece>, instructions: seq<string>)
    requires forall p :: p in pieces ==> !Repeated(p, instructions)
    ensures Select(pieces, instructions) == pieces
  {
    if pieces != [] {
      SelectAll(pieces[1..], instructions);
      assert pieces == [pieces[0]] + pieces[1..];
    }
  }

  lemma FilteredMeaning(m: Message, instructions: seq<string>)
    ensures var f := Filtered(m, instructions);
      if Gone(m, instructions) then f == [] else |f| == 1 && KeptFrom(m, instructions, f[0])
  {
    SelectNothing(Pieces(m), instructions);
    if m.role.User? {
      if m.content.Plain? {
        assert Pieces(m)[0] in Pieces(m) && Pieces(m)[1..] == [];
        assert Select(Pieces(m), instructions) == if Gone(m, instructions) then [] else Pieces(m);
      } else {
        DropTextsSelects(m.content.blocks, instructions);
        assert m == Message(User, Blocks(m.content.blocks));
        var kept := DropTexts(m.content.blocks, instructions);
        assert |Pieces(Message(User, Blocks(kept)))| == |kept|;
      }
    } else {
      SelectAll(Pieces(m), instructions);
    }
  }

  lemma {:induction false} DialogueKeeps(ms: seq<Message>, instructions: seq<string>) returns (places: seq<nat>)
    ensures KeepsAt(ms, instructions, Dialogue(ms, instructions), places)
  {
    if ms == [] {
      places := [];
    } else {
      var m, tail := ms[0], ms[1..];
      var d := Dialogue(tail, instructions);
      var rest := DialogueKeeps(tail, instructions);
      assert ms == [m] + tail;
      FilteredMeaning(m, instructions);
      if Gone(m, instructions) {
        AddGone(m, tail, instructions, d, rest);
        places := Later(rest);
        assert Dialogue(ms, instructions) == d;
      } else {
        var n := Filtered(m, instructions)[0];
        AddKept(m, tail, instructions, n, d, rest);
        places := [0] + Later(rest);
        assert Filtered(m, instructions) == [n] && Dialogue(ms, instructions) == [n] + d;
      }
    }
  }

  /** The places one message further. */
  function Later(places: seq<nat>): (r: seq<nat>)
    ensures |r| == |places| && forall i :: 0 <= i < |places| ==> r[i] == places[i] + 1
  {
    seq(|places|, i requires 0 <= i < |places| => places[i] + 1)
  }

  lemma LaterHolds(places: seq<nat>, j: nat)
    requires j > 0
    ensures j in Later(places) <==> j - 1 in places
  {
    if i :| 0 <= i < |places| && places[i] == j - 1 { assert Later(places)[i] == j; }
  }

  lemma AddGone(m: Message, ms: seq<Message>, instructions: seq<string>, d: seq<Message>, rest: seq<nat>)
    requires Gone(m, instructions) && KeepsAt(ms, instructions, d, rest)
    ensures KeepsAt([m] + ms, instructions, d, Later(rest))
  {
    var all := [m] + ms;
    forall i | 0 <= i < |rest|
      ensures KeptAt(all, instructions, d, Later(rest), i)
    {
      assert KeptAt(ms, instructions, d, rest, i) && all[Later(rest)[i]] == ms[rest[i]];
    }
    forall j: nat | 0 < j < |all| && j !in Later(rest)
      ensures Gone(all[j], instructions)
    {
      LaterHolds(rest, j);
      assert all[j] == ms[j - 1];
    }
  }

  lemma AddKept(
      m: Message, ms: seq<Message>, instructions: seq<string>, n: Message, d: seq<Message>, rest: seq<nat>)
    requires KeptFrom(m, instructions, n) && KeepsAt(ms, instructions, d, rest)
    ensures KeepsAt([m] + ms, instructions, [n] + d, [0] + Later(rest))
  {
    forall i: nat | i < |[0] + Later(rest)|
      ensures KeptAt([m] + ms, instructions, [n] + d, [0] + Later(rest), i)
    {
      if i > 0 { KeptNext(m, ms, instructions, n, d, rest, i - 1); }
    }
    IncreasingLater(rest);
    GoneNext(m, ms, instructions, rest);
  }

  lemma KeptNext(m: Message, ms: seq<Message>, instructions: seq<string>, n: Message, d: seq<Message>, rest: seq<nat>,
                 i: nat)
    requires KeptAt(ms, instructions, d, rest, i)
    ensures KeptAt([m] + ms, instructions, [n] + d, [0] + Later(rest), i + 1)
  {
    assert ([0] + Later(rest))[i + 1] == rest[i] + 1 && ([m] + ms)[rest[i] + 1] == ms[rest[i]];
    assert ([n] + d)[i + 1] == d[i];
  }

  lemma GoneNext(m: Message, ms: seq<Message>, instructions: seq<string>, rest: seq<nat>)
    requires GoneElsewhere(ms, instructions, rest)
    ensures GoneElsewhere([m] + ms, instructions, [0] + Later(rest))
  {
    forall j: nat | j < |[m] + ms| && j !in [0] + Later(rest)
      ensures Gone(([m] + ms)[j], instructions)
    {
      NotYet(rest, j);
      assert ([m] + ms)[j] == ms[j - 1];
    }
  }

  lemma IncreasingLater(rest: seq<nat>)
    requires Increasing(rest)
    ensures Increasing([0] + Later(rest))
  {
    var places := [0] + Later(rest);
    assert forall i :: 0 < i < |places| ==> places[i] == rest[i - 1] + 1;
  }

  lemma NotYet(rest: seq<nat>, j: nat)
    requires j !in [0] + Later(rest)
    ensures j > 0 && j - 1 !in rest
  {
    assert ([0] + Later(rest))[0] == 0;
    if j > 0 { LaterHolds(rest, j); }
  }

  // ---------------------------------------------------------------- what is shortened

  const MARK := "[runtime marker]"

  /** A text that is marked or short stays; any other is replaced by a marked one that says what it was. */
  ghost predicate Shortened(text: string, caption: string, out: string, limit: nat) {
    if MARK <= text || |text| <= limit then out == text else MARK <= out && ReplacedBy(text, caption, out)
  }

  ghost predicate BlockShortened(role: Role, b: Block, out: Block) {
    match b
    case Text(text) =>
      if role.User? then out == b else out.Text? && Shortened(text, "assistant text block", out.text, 240)
    case UseBlock(_) => out == b
    case ResultBlock(id, text) =>
      out.ResultBlock? && out.useId == id && Shortened(text, "tool_result " + id, out.content, 320)
  }

  /** Nothing but the texts of the assistant and of tool results changes. */
  ghost predicate MessageShortened(m: Message, out: Message) {
    && out.role == m.role
    && match m.content
       case Plain(text) =>
         if m.role.User? then out == m
         else out.content.Plain? && Shortened(text, "assistant message", out.content.text, 240)
       case Blocks(blocks) =>
         && out.content.Blocks? && |out.content.blocks| == |blocks|
         && forall i :: 0 <= i < |blocks| ==> BlockShortened(m.role, blocks[i], out.content.blocks[i])
  }

  predicate Long(text: string, limit: nat) { !(MARK <= text) && |text| > limit }

  /** A long unmarked text of the assistant, or of a tool result. */
  predicate Oversized(m: Message) {
    match m.content
    case Plain(text) => m.role.Assistant? && Long(text, 240)
    case Blocks(blocks) => exists i :: 0 <= i < |blocks| && OversizedBlock(m.role, blocks[i])
  }

  predicate OversizedBlock(role: Role, b: Block) {
    || (b.Text? && role.Assistant? && Long(b.text, 240))
    || (b.ResultBlock? && Long(b.content, 320))
  }

  lemma TextShortened(text: string, caption: string, limit: nat)
    ensures Shortened(text, caption, CompactText(text, caption, limit), limit)
    ensures CompactText(text, caption, limit) == text <==> !Long(text, limit)
    ensures !Long(CompactText(text, caption, limit), limit)
  {
    PrefixOf(MARKER_PREFIX, Replacement(text, caption));
    ReplacementMeaning(text, caption, limit);
  }

  lemma BlockIsShortened(b: Block, role: Role)
    ensures BlockShortened(role, b, CompactBlock(b, role)) && !OversizedBlock(role, CompactBlock(b, role))
    ensures CompactBlock(b, role) == b <==> !OversizedBlock(role, b)
  {
    if b.Text? && role.Assistant? {
      TextShortened(b.text, RoleName(role) + " text block", MAX_INLINE_CHARS);
      assert RoleName(role) + " text block" == "assistant text block";
    }
    if b.ResultBlock? { TextShortened(b.content, "tool_result " + b.useId, MAX_TOOL_RESULT_CHARS); }
  }

  lemma MessageIsShortened(m: Message)
    ensures MessageShortened(m, CompactMessage(m)) && !Oversized(CompactMessage(m))
    ensures CompactMessage(m) == m <==> !Oversized(m)
  {
    if m.content.Plain? {
      TextShortened(m.content.text, "assistant message", MAX_INLINE_CHARS);
    } else {
      var blocks, out := m.content.blocks, CompactMessage(m).content.blocks;
      forall i | 0 <= i < |blocks|
        ensures BlockShortened(m.role, blocks[i], out[i]) && !OversizedBlock(m.role, out[i])
        ensures out[i] == blocks[i] <==> !OversizedBlock(m.role, blocks[i])
      {
        BlockIsShortened(blocks[i], m.role);
      }
      assert out == blocks <==> forall i :: 0 <= i < |blocks| ==> out[i] == blocks[i];
    }
  }

  // ---------------------------------------------------------------- what comes out

  /** d is what filtering leaves, and the kept messages are its last ones, shortened. */
  ghost predicate LastShortened(d: seq<Message>, kept: seq<Message>) {
    |kept| <= |d| && forall i :: 0 <= i < |kept| ==> MessageShortened(d[|d| - |kept| + i], kept[i])
  }

  lemma LastAreShortened(d: seq<Message>, removed: seq<Message>, kept: seq<Message>)
    requires CompactAll(d) == removed + kept
    ensures LastShortened(d, kept) && |removed| == |d| - |kept|
    ensures forall i :: 0 <= i < |kept| ==> !Oversized(kept[i])
  {
    var n := |removed|;
    forall i | 0 <= i < |kept|
      ensures MessageShortened(d[n + i], kept[i]) && !Oversized(kept[i])
    {
      assert kept[i] == (removed + kept)[n + i] == CompactMessage(d[n + i]);
      MessageIsShortened(d[n + i]);
    }
  }

  lemma KeptIsTail(instructions: seq<string>, marker: Message, kept: seq<Message>)
    ensures var out, n := Capsule(instructions) + [marker] + kept, if instructions == [] then 1 else 2;
      |out| == n + |kept| && kept == out[n..]
  {
  }

  /** Of the dialogue, without the user texts that are instructions, the last messages come out, with
      long texts shortened and nothing else altered; none of them is oversized. */
  lemma OutputMeaning(ms: seq<Message>, instructions: seq<string>, groups: seq<seq<Message>>, k: nat, out: Compacted)
    requires IsCompaction(ms, instructions, groups, k, out)
    ensures var d, n := Dialogue(ms, instructions), if instructions == [] then 1 else 2;
      && |out.messages| >= n && KeepsRest(ms, instructions, d) && LastShortened(d, out.messages[n..])
      && (forall i :: n <= i < |out.messages| ==> !Oversized(out.messages[i]))
      && out.stats.removedMessages == |d| + n - |out.messages|
  {
    var removed, kept := Flatten(groups[..k]), Flatten(groups[k..]);
    var places := DialogueKeeps(ms, instructions);
    CompactionAccepted(ms, instructions, groups, k, out);
    LastAreShortened(Dialogue(ms, instructions), removed, kept);
    KeptIsTail(instructions, Marker(removed), kept);
  }

  lemma OversizedIsKept(ms: seq<Message>, instructions: seq<string>, d: seq<Message>, places: seq<nat>, j: nat)
    requires KeepsAt(ms, instructions, d, places) && j < |ms| && Oversized(ms[j])
    ensures exists i :: 0 <= i < |d| && Oversized(d[i])
  {
    OversizedPiece(ms[j], instructions);
    var i: nat :| i < |places| && places[i] == j;
    assert KeptAt(ms, instructions, d, places, i);
    KeptOversized(ms[j], instructions, d[i]);
  }

  lemma KeptWasOversized(ms: seq<Message>, instructions: seq<string>, d: seq<Message>, places: seq<nat>, i: nat)
    requires KeepsAt(ms, instructions, d, places) && i < |d| && Oversized(d[i])
    ensures exists j :: 0 <= j < |ms| && Oversized(ms[j])
  {
    assert KeptAt(ms, instructions, d, places, i);
    KeptOversized(ms[places[i]], instructions, d[i]);
  }

  ghost predicate SomeOversized(ms: seq<Message>) { exists i :: 0 <= i < |ms| && Oversized(ms[i]) }

  /** Filtering leaves every oversized message in. */
  lemma OversizedStays(ms: seq<Message>, instructions: seq<string>)
    ensures SomeOversized(ms) <==> SomeOversized(Dialogue(ms, instructions))
  {
    var d := Dialogue(ms, instructions);
    var places := DialogueKeeps(ms, instructions);
    if j: nat :| j < |ms| && Oversized(ms[j]) { OversizedIsKept(ms, instructions, d, places, j); }
    if i: nat :| i < |d| && Oversized(d[i]) { KeptWasOversized(ms, instructions, d, places, i); }
  }

  predicate OversizedPieceOf(p: Piece) {
    if p.plain then p.role.Assistant? && p.block.Text? && Long(p.block.text, 240) else OversizedBlock(p.role, p.block)
  }

  lemma OversizedPieces(m: Message)
    ensures Oversized(m) <==> exists i :: 0 <= i < |Pieces(m)| && OversizedPieceOf(Pieces(m)[i])
  {
    if m.content.Plain? {
      assert OversizedPieceOf(Pieces(m)[0]) <==> Oversized(m);
    } else {
      var blocks := m.content.blocks;
      assert forall i :: 0 <= i < |blocks| ==>
        Pieces(m)[i].block == blocks[i] && (OversizedPieceOf(Pieces(m)[i]) <==> OversizedBlock(m.role, blocks[i]));
    }
  }

  lemma OversizedPiece(m: Message, instructions: seq<string>)
    requires Oversized(m)
    ensures !Gone(m, instructions)
  {
    OversizedPieces(m);
    var i :| 0 <= i < |Pieces(m)| && OversizedPieceOf(Pieces(m)[i]);
    assert Pieces(m)[i] in Pieces(m);
  }

  lemma {:induction false} SelectHolds(pieces: seq<Piece>, instructions: seq<string>, p: Piece)
    ensures p in Select(pieces, instructions) <==> p in pieces && !Repeated(p, instructions)
  {
    if pieces != [] {
      SelectHolds(pieces[1..], instructions, p);
      assert pieces == [pieces[0]] + pieces[1..];
    }
  }

  lemma KeptOversized(m: Message, instructions: seq<string>, n: Message)
    requires KeptFrom(m, instructions, n)
    ensures Oversized(n) <==> Oversized(m)
  {
    OversizedPieces(m);
    OversizedPieces(n);
    if i :| 0 <= i < |Pieces(m)| && OversizedPieceOf(Pieces(m)[i]) {
      SelectHolds(Pieces(m), instructions, Pieces(m)[i]);
      assert Pieces(m)[i] in Pieces(n);
    }
    if i :| 0 <= i < |Pieces(n)| && OversizedPieceOf(Pieces(n)[i]) {
      SelectHolds(Pieces(m), instructions, Pieces(n)[i]);
      assert Pieces(n)[i] in Pieces(m);
    }
  }

  /** There is nothing to do exactly when no text is too long and fewer than four messages follow the
      first exchange of the filtered dialogue. */
  lemma NothingToDo(ms: seq<Message>, instructions: seq<string>)
    ensures NothingToCompact(ms, instructions) <==>
      && !SomeOversized(ms)
      && exists groups ::
           IsPartition(groups, Dialogue(ms, instructions)) && (groups == [] || |Flatten(groups[1..])| < 4)
  {
    var d, r := Dialogue(ms, instructions), Rewritten(ms, instructions);
    OversizedStays(ms, instructions);
    forall i | 0 <= i < |d|
      ensures r[i] == d[i] <==> !Oversized(d[i])
    {
      MessageIsShortened(d[i]);
    }
    assert r == d <==> forall i :: 0 <= i < |d| ==> r[i] == d[i];
    forall groups: seq<seq<Message>>
      ensures IsCut(groups, 0) <==> groups == [] || |Flatten(groups[1..])| < 4
    {
      assert groups[0..] == groups;
    }
  }

  /** A dialogue with a text that is too long is always worth compacting. */
  lemma OversizedIsWorthIt(ms: seq<Message>, instructions: seq<string>)
    requires SomeOversized(ms)
    ensures !NothingToCompact(ms, instructions)
  {
    NothingToDo(ms, instructions);
  }

  // ---------------------------------------------------------------- what counts as an instruction

  /** The texts of the user, in order. */
  function UserTexts(pieces: seq<Piece>): seq<string> {
    if pieces == [] then []
    else (if pieces[0].role.User? && pieces[0].block.Text? then [pieces[0].block.text] else []) + UserTexts(pieces[1..])
  }

  lemma {:induction false} UserTextsAppend(a: seq<Piece>, b: seq<Piece>)
    ensures UserTexts(a + b) == UserTexts(a) + UserTexts(b)
  {
    if a == [] {
      assert a + b == b;
    } else {
      assert (a + b)[1..] == a[1..] + b;
      UserTextsAppend(a[1..], b);
    }
  }

  lemma {:induction false} BlockTexts(blocks: seq<Block>, role: Role)
    ensures UserTexts(Pieces(Message(role, Blocks(blocks)))) == if role.User? then Texts(blocks) else []
  {
    if blocks != [] {
      BlockTexts(blocks[1..], role);
      assert Pieces(Message(role, Blocks(blocks)))[1..] == Pieces(Message(role, Blocks(blocks[1..])));
    }
  }

  /** The captured instructions are all texts of the user, and nothing else. */
  lemma {:induction false} CapturedMeaning(ms: seq<Message>)
    ensures Captured(ms) == UserTexts(PiecesOf(ms))
  {
    if ms != [] {
      var m := ms[0];
      CapturedMeaning(ms[1..]);
      UserTextsAppend(Pieces(m), PiecesOf(ms[1..]));
      if m.content.Plain? {
        assert Pieces(m)[1..] == [];
      } else {
        BlockTexts(m.content.blocks, m.role);
        assert m == Message(m.role, Blocks(m.content.blocks));
      }
    }
  }

  // ---------------------------------------------------------------- what is counted

  function Trues(bs: seq<bool>): nat { if bs == [] then 0 else (if bs[0] then 1 else 0) + Trues(bs[1..]) }

  function Places(bs: seq<bool>): set<nat> { set i: nat | i < |bs| && bs[i] }

  lemma {:induction false} TruesAppend(a: seq<bool>, b: seq<bool>)
    ensures Trues(a + b) == Trues(a) + Trues(b)
  {
    if a == [] {
      assert a + b == b;
    } else {
      assert (a + b)[1..] == a[1..] + b;
      TruesAppend(a[1..], b);
    }
  }

  lemma {:induction false} TruesCounted(bs: seq<bool>)
    ensures Trues(bs) == |Places(bs)|
  {
    if bs == [] {
      assert Places(bs) == {};
    } else {
      var n: nat := |bs| - 1;
      var front := bs[..n];
      assert bs == front + [bs[n]] && [bs[n]][1..] == [];
      TruesCounted(front);
      TruesAppend(front, [bs[n]]);
      assert Places(bs) == Places(front) + if bs[n] then {n} else {};
    }
  }

  /** Which messages are oversized, and which of all pieces are: any of them, or tool results. */
  function OversizedMessages(ms: seq<Message>): seq<bool> {
    seq(|ms|, i requires 0 <= i < |ms| => Oversized(ms[i]))
  }

  function PiecesOf(ms: seq<Message>): seq<Piece> { if ms == [] then [] else Pieces(ms[0]) + PiecesOf(ms[1..]) }

  function OversizedAmong(pieces: seq<Piece>): seq<bool> {
    seq(|pieces|, i requires 0 <= i < |pieces| => OversizedPieceOf(pieces[i]))
  }

  function ResultsAmong(pieces: seq<Piece>): seq<bool> {
    seq(|pieces|, i requires 0 <= i < |pieces| => pieces[i].block.ResultBlock? && OversizedPieceOf(pieces[i]))
  }

  lemma PiecesCons(b: Block, rest: seq<Block>, role: Role)
    ensures Pieces(Message(role, Blocks([b] + rest)))
            == [Piece(role, false, b)] + Pieces(Message(role, Blocks(rest)))
  {
  }

  lemma OneCounted(p: Piece)
    ensures Trues(OversizedAmong([p])) == if OversizedPieceOf(p) then 1 else 0
    ensures Trues(ResultsAmong([p])) == if p.block.ResultBlock? && OversizedPieceOf(p) then 1 else 0
  {
    var a, b := OversizedAmong([p]), ResultsAmong([p]);
    assert a == [OversizedPieceOf(p)] && b == [p.block.ResultBlock? && OversizedPieceOf(p)];
    assert a[1..] == [] && b[1..] == [];
  }

  lemma {:induction false} BlocksCounted(blocks: seq<Block>, role: Role)
    ensures var pieces := Pieces(Message(role, Blocks(blocks)));
      && ChangedBlocks(blocks, role) == Trues(OversizedAmong(pieces))
      && ChangedResults(blocks, role) == Trues(ResultsAmong(pieces))
  {
    if blocks != [] {
      var b, tail := blocks[0], blocks[1..];
      var p := Piece(role, false, b);
      assert blocks == [b] + tail;
      BlocksCounted(tail, role);
      BlockIsShortened(b, role);
      PiecesCons(b, tail, role);
      OneCounted(p);
      JoinedCounts([p], Pieces(Message(role, Blocks(tail))));
    }
  }

  lemma NoTrues(bs: seq<bool>)
    ensures Trues(bs) == 0 <==> forall i :: 0 <= i < |bs| ==> !bs[i]
  {
    if bs != [] { NoTrues(bs[1..]); }
  }

  lemma AnyOversized(pieces: seq<Piece>)
    ensures Trues(OversizedAmong(pieces)) == 0 <==> forall i :: 0 <= i < |pieces| ==> !OversizedPieceOf(pieces[i])
    ensures Trues(OversizedAmong(pieces)) == 0 ==> Trues(ResultsAmong(pieces)) == 0
  {
    NoTrues(OversizedAmong(pieces));
    NoTrues(ResultsAmong(pieces));
    assert forall i :: 0 <= i < |pieces| ==> OversizedAmong(pieces)[i] == OversizedPieceOf(pieces[i]);
  }

  /** The counters count the pieces. */
  ghost predicate Counts(s: Stats, oversized: bool, pieces: seq<Piece>) {
    && s.changedMessages == (if oversized then 1 else 0)
    && s.compactedBlocks == Trues(OversizedAmong(pieces))
    && s.compactedToolResults == Trues(ResultsAmong(pieces))
  }

  lemma PlainCounted(role: Role, text: string)
    ensures var m := Message(role, Plain(text)); Counts(StatsOf(m), Oversized(m), Pieces(m))
  {
    var m := Message(role, Plain(text));
    var pieces := Pieces(m);
    MessageIsShortened(m);
    assert OversizedAmong(pieces) == [Oversized(m)] && ResultsAmong(pieces) == [false];
    assert [Oversized(m)][1..] == [] && [false][1..] == [];
  }

  lemma MessageCounted(m: Message)
    ensures Counts(StatsOf(m), Oversized(m), Pieces(m))
  {
    if m.content.Plain? {
      PlainCounted(m.role, m.content.text);
    } else {
      BlocksCounted(m.content.blocks, m.role);
      assert m == Message(m.role, Blocks(m.content.blocks));
      OversizedPieces(m);
      AnyOversized(Pieces(m));
    }
  }

  lemma JoinedCounts(a: seq<Piece>, b: seq<Piece>)
    ensures Trues(OversizedAmong(a + b)) == Trues(OversizedAmong(a)) + Trues(OversizedAmong(b))
    ensures Trues(ResultsAmong(a + b)) == Trues(ResultsAmong(a)) + Trues(ResultsAmong(b))
  {
    assert OversizedAmong(a + b) == OversizedAmong(a) + OversizedAmong(b);
    assert ResultsAmong(a + b) == ResultsAmong(a) + ResultsAmong(b);
    TruesAppend(OversizedAmong(a), OversizedAmong(b));
    TruesAppend(ResultsAmong(a), ResultsAmong(b));
  }

  lemma {:induction false} AllCounted(ms: seq<Message>)
    ensures Total(ms).changedMessages == Trues(OversizedMessages(ms))
    ensures Total(ms).compactedBlocks == Trues(OversizedAmong(PiecesOf(ms)))
    ensures Total(ms).compactedToolResults == Trues(ResultsAmong(PiecesOf(ms)))
  {
    if ms != [] {
      MessageCounted(ms[0]);
      AllCounted(ms[1..]);
      assert OversizedMessages(ms)[1..] == OversizedMessages(ms[1..]);
      JoinedCounts(Pieces(ms[0]), PiecesOf(ms[1..]));
    }
  }

  /** The counters are how many messages, texts and tool results of the dialogue were oversized. */
  lemma StatsMeaning(ms: seq<Message>)
    ensures Total(ms).changedMessages == |Places(OversizedMessages(ms))|
    ensures Total(ms).compactedBlocks == |Places(OversizedAmong(PiecesOf(ms)))|
    ensures Total(ms).compactedToolResults == |Places(ResultsAmong(PiecesOf(ms)))|
  {
    AllCounted(ms);
    TruesCounted(OversizedMessages(ms));
    TruesCounted(OversizedAmong(PiecesOf(ms)));
    TruesCounted(ResultsAmong(PiecesOf(ms)));
  }

  // ---------------------------------------------------------------- what is said of removed messages

  function Between(parts: seq<string>, separator: string): string {
    if parts == [] then "" else if |parts| == 1 then parts[0] else parts[0] + separator + Between(parts[1..], separator)
  }

  function BlockLine(b: Block): string {
    match b
    case Text(_) => "text removed"
    case UseBlock(u) => "tool_use:" + u.id + ":" + u.name
    case ResultBlock(id, _) => "tool_result:" + id + " content removed"
  }

  /** The role, and what each block was, with the ids of calls and results. */
  ghost predicate Describes(m: Message, line: string) {
    var role := if m.role.User? then "user" else "assistant";
    if m.content.Plain? then line == role + " text removed"
    else
      exists parts: seq<string> ::
        && |parts| == |m.content.blocks| && line == role + " " + Between(parts, " | ")
        && forall i :: 0 <= i < |parts| ==> parts[i] == BlockLine(m.content.blocks[i])
  }

  ghost predicate NumberedLine(m: Message, n: nat, line: string) {
    exists number: string, description: string ::
      line == number + ". " + description && ValueOf(number) == n && Describes(m, description)
  }

  /** How many messages are gone, the first three of them, and how many more. */
  ghost predicate Summary(ms: seq<Message>, text: string) {
    exists count: string, lines: seq<string>, rest: string ::
      && text == "removed_messages=" + count + "\n" + Between(lines, "\n") + rest
      && ValueOf(count) == |ms| && |lines| == (if |ms| < 3 then |ms| else 3)
      && (forall i :: 0 <= i < |lines| ==> NumberedLine(ms[i], i + 1, lines[i]))
      && FurtherText(|ms|, rest)
  }

  lemma {:induction false} JoinBetween(parts: seq<string>, separator: string)
    ensures Join(parts, separator) == Between(parts, separator)
  {
    if |parts| > 1 { JoinBetween(parts[1..], separator); }
  }

  lemma MessageDescribed(m: Message)
    ensures Describes(m, SummarizeMessage(m))
  {
    if m.content.Blocks? {
      var blocks := m.content.blocks;
      var parts := seq(|blocks|, i requires 0 <= i < |blocks| => SummarizeBlock(blocks[i]));
      JoinBetween(parts, " | ");
      assert forall i :: 0 <= i < |parts| ==> parts[i] == BlockLine(blocks[i]);
    }
  }

  lemma LineIsNumbered(m: Message, n: nat)
    ensures NumberedLine(m, n, Decimal(n) + ". " + SummarizeMessage(m))
  {
    DecimalRead(n);
    MessageDescribed(m);
  }

  lemma LineAt(ms: seq<Message>, i: nat)
    requires i < |RemovedLines(ms)|
    ensures i < |ms| && NumberedLine(ms[i], i + 1, RemovedLines(ms)[i])
  {
    var n: nat := i + 1;
    LineIsNumbered(ms[i], n);
    assert RemovedLines(ms)[i] == Decimal(n) + ". " + SummarizeMessage(ms[i]);
  }

  lemma LinesAreNumbered(ms: seq<Message>)
    ensures |RemovedLines(ms)| == if |ms| < 3 then |ms| else 3
    ensures forall i :: 0 <= i < |RemovedLines(ms)| ==> NumberedLine(ms[i], i + 1, RemovedLines(ms)[i])
  {
    forall i: nat | i < |RemovedLines(ms)| { LineAt(ms, i); }
  }

  ghost predicate FurtherText(n: int, rest: string) {
    if n <= 3 then rest == ""
    else exists more :: rest == "\n+ " + more + " more removed message(s)." && ValueOf(more) == n - 3
  }

  lemma FurtherIsText(ms: seq<Message>)
    ensures FurtherText(|ms|, FurtherRemoved(ms))
  {
    if |ms| > 3 { DecimalRead(|ms| - 3); }
  }

  /** The marker of a compaction tells how much was removed, and what the first messages were. */
  lemma SummaryMeaning(ms: seq<Message>)
    ensures Summary(ms, SummarizeRemoved(ms))
  {
    JoinBetween(RemovedLines(ms), "\n");
    LinesAreNumbered(ms);
    DecimalRead(|ms|);
    FurtherIsText(ms);
  }

  lemma MarkerMeaning(ms: seq<Message>)
    ensures Marker(ms).role.User? && Marker(ms).content.Plain? && MARK <= Marker(ms).content.text
    ensures Marker(ms).content.text == COMPACTION_NOTICE + SummarizeRemoved(ms) + EVIDENCE_NOTICE
  {
    assert MARK <= COMPACTION_NOTICE;
  }
}
