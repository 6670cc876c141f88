/** The canonical text and the content hash of a prompt version. */
module PromptContent {
  import opened Wrappers
  import opened Unicode
  import opened Sorting
  import opened CanonicalJson

  type Sha256 = seq<Byte> -> Text

  const INSTRUCTIONS: Text := Lit("system_instructions")
  const NOTES: Text := Lit("output_contract_notes")

  function PromptItems(instructions: Text, notes: Text): seq<Item> {
    [(INSTRUCTIONS, Str(instructions)), (NOTES, Str(notes))]
  }

  function PromptText(instructions: Text, notes: Text): Text {
    Canonical(true, PromptItems(instructions, notes))
  }

  lemma PromptSorted(instructions: Text, notes: Text)
    ensures Sort(ItemLeq, PromptItems(instructions, notes)) == [(NOTES, Str(notes)), (INSTRUCTIONS, Str(instructions))]
  {
    var a, b := (INSTRUCTIONS, Str(instructions)), (NOTES, Str(notes));
    assert INSTRUCTIONS[0] == 's' as int && NOTES[0] == 'o' as int;
    assert !ItemLeq(a, b);
    var tail: seq<Item> := [b];
    assert PromptItems(instructions, notes)[1..] == tail && tail[1..] == [];
    assert Sort(ItemLeq, tail) == tail;
    assert Insert(ItemLeq, a, tail) == [b, a];
  }

  lemma KeysPrintable()
    ensures Printable(INSTRUCTIONS) && Printable(NOTES)
  {
  }

  lemma KeyRecovered(key: Text)
    requires Printable(key)
    ensures Recovered(true, key) == key
  {
    JoinLength(key);
  }

  /** Reading a prompt's canonical text back: both strings, with split pairs joined. */
  lemma PromptReads(instructions: Text, notes: Text)
    ensures Read(true, PromptText(instructions, notes))
         == Some([(NOTES, Str(Join(Units(notes)))), (INSTRUCTIONS, Str(Join(Units(instructions))))])
  {
    PromptSorted(instructions, notes);
    KeysPrintable();
    KeyRecovered(INSTRUCTIONS);
    KeyRecovered(NOTES);
    var items := [(NOTES, Str(notes)), (INSTRUCTIONS, Str(instructions))];
    ObjectRoundTrip(true, items);
    assert RecoveredItems(true, items) == [RecoveredItem(true, items[0]), RecoveredItem(true, items[1])];
  }

  /** The text gives both strings back exactly when neither holds a high surrogate directly
      followed by a low one. */
  lemma PromptReadsExactly(instructions: Text, notes: Text)
    ensures Read(true, PromptText(instructions, notes)) == Some([(NOTES, Str(notes)), (INSTRUCTIONS, Str(instructions))])
       <==> NoSplitPair(instructions) && NoSplitPair(notes)
  {
    PromptReads(instructions, notes);
    JoinLength(instructions);
    JoinLength(notes);
    var items := [(NOTES, Str(Join(Units(notes)))), (INSTRUCTIONS, Str(Join(Units(instructions))))];
    if Some(items) == Some([(NOTES, Str(notes)), (INSTRUCTIONS, Str(instructions))]) {
      assert items[0] == (NOTES, Str(notes)) && items[1] == (INSTRUCTIONS, Str(instructions));
    }
  }

  /** Two prompts share a canonical text exactly when their strings have the same UTF-16 units. */
  lemma PromptTextIff(i: Text, n: Text, j: Text, m: Text)
    ensures PromptText(i, n) == PromptText(j, m) <==> Units(i) == Units(j) && Units(n) == Units(m)
  {
    PromptSorted(i, n);
    PromptSorted(j, m);
    PromptReads(i, n);
    PromptReads(j, m);
    SameUnits(i, j);
    SameUnits(n, m);
    if PromptText(i, n) == PromptText(j, m) {
      var a := [(NOTES, Str(Join(Units(n)))), (INSTRUCTIONS, Str(Join(Units(i))))];
      var b := [(NOTES, Str(Join(Units(m)))), (INSTRUCTIONS, Str(Join(Units(j))))];
      assert a == b;
      assert a[0] == b[0] && a[1] == b[1];
    } else if Units(i) == Units(j) && Units(n) == Units(m) {
      SameUnitsPrintAlike(NOTES, n, m);
      SameUnitsPrintAlike(INSTRUCTIONS, i, j);
      PrintTwo((NOTES, Str(n)), (INSTRUCTIONS, Str(i)));
      PrintTwo((NOTES, Str(m)), (INSTRUCTIONS, Str(j)));
      assert false;
    }
  }

  lemma SameUnitsPrintAlike(key: Text, s: Text, t: Text)
    requires Units(s) == Units(t)
    ensures PrintItem(true, (key, Str(s))) == PrintItem(true, (key, Str(t)))
  {
  }

  lemma PrintTwo(a: Item, b: Item)
    ensures PrintObject(true, [a, b])
         == [OPEN] + (PrintItem(true, a) + [COMMA] + (PrintItem(true, b) + [] + [CLOSE]))
  {
    var both: seq<Item>, last: seq<Item> := [a, b], [b];
    assert both[1..] == last && last[1..] == [];
    assert PrintItems(true, last) == PrintItem(true, b) + [] + [CLOSE];
    assert PrintItems(true, both) == PrintItem(true, a) + [COMMA] + PrintItems(true, last);
  }

  /** The whole text of every prompt. */
  lemma PromptTextIs(instructions: Text, notes: Text)
    ensures PromptText(instructions, notes)
         == Lit("{\"") + Lit("output_contract_notes") + Lit("\":") + PrintString(true, notes)
            + (Lit(",\"") + Lit("system_instructions") + Lit("\":") + PrintString(true, instructions) + Lit("}"))
  {
    PromptSorted(instructions, notes);
    KeysPlain();
    LabelIs(NOTES);
    LabelIs(INSTRUCTIONS);
    PrintTwo((NOTES, Str(notes)), (INSTRUCTIONS, Str(instructions)));
    LabelPrints(true, NOTES, Str(notes));
    LabelPrints(true, INSTRUCTIONS, Str(instructions));
    TwoPrinted(Label(NOTES), PrintString(true, notes), Label(INSTRUCTIONS), PrintString(true, instructions));
    assert Lit("}") == [CLOSE];
  }

  lemma TwoPrinted(a: Text, x: Text, b: Text, y: Text)
    ensures [OPEN] + (a + x + [COMMA] + (b + y + [] + [CLOSE])) == [OPEN] + a + x + ([COMMA] + b + y + [CLOSE])
  {
  }

  lemma KeysPlain()
    ensures Plain(INSTRUCTIONS) && Plain(NOTES)
  {
  }

  /** A prompt of plain text is hashed as exactly this text. */
  lemma PlainPromptIs(sha: Sha256, instructions: Text, notes: Text)
    requires Plain(instructions) && Plain(notes)
    ensures var text := Lit("{\"") + Lit("output_contract_notes") + Lit("\":") + ([0x22] + notes + [0x22])
                        + (Lit(",\"") + Lit("system_instructions") + Lit("\":") + ([0x22] + instructions + [0x22])
                           + Lit("}"));
            PromptText(instructions, notes) == text && Ascii(text) && ContentSha(sha, instructions, notes) == sha(text)
  {
    PromptTextIs(instructions, notes);
    PlainPrints(true, notes);
    PlainPrints(true, instructions);
    AsciiFormEncodes(PromptItems(instructions, notes));
    AsciiEncodes(PromptText(instructions, notes));
  }

  /** For prompts without split pairs, a different prompt is a different text. */
  lemma PromptTextInjective(i: Text, n: Text, j: Text, m: Text)
    requires NoSplitPair(i) && NoSplitPair(n) && NoSplitPair(j) && NoSplitPair(m)
    requires PromptText(i, n) == PromptText(j, m)
    ensures i == j && n == m
  {
    PromptTextIff(i, n, j, m);
    JoinLength(i);
    JoinLength(n);
    JoinLength(j);
    JoinLength(m);
  }

  /** Two lone surrogates and the character they spell share a text. */
  lemma SplitPairCollides()
    ensures PromptText([0xD83D, 0xDE00], []) == PromptText([0x1F600], [])
    ensures [0xD83D, 0xDE00] != [0x1F600]
  {
    var s: Text, t: Text := [0xD83D, 0xDE00], [0x1F600];
    assert s[1..] == [0xDE00] && s[1..][1..] == [] && t[1..] == [];
    assert Units(s[1..]) == [0xDE00];
    assert Units(s) == [0xD83D, 0xDE00];
    assert HighOf(0x1F600) == 0xD83D && LowOf(0x1F600) == 0xDE00;
    PromptTextIff(s, [], t, []);
  }

  // ----- the hash -----

  /** `compute_prompt_content_sha256`: the text is ASCII, so it always encodes. */
  function ContentSha(sha: Sha256, instructions: Text, notes: Text): Text {
    AsciiFormEncodes(PromptItems(instructions, notes));
    sha(Encode(PromptText(instructions, notes)).value)
  }

  /** Absent a digest collision, equal hashes mean the same content, unit for unit. */
  lemma ContentShaIff(sha: Sha256, i: Text, n: Text, j: Text, m: Text)
    requires var b, c := Encode(PromptText(i, n)), Encode(PromptText(j, m));
             b.Some? && c.Some? && sha(b.value) == sha(c.value) ==> b == c
    ensures ContentSha(sha, i, n) == ContentSha(sha, j, m) <==> Units(i) == Units(j) && Units(n) == Units(m)
  {
    AsciiFormEncodes(PromptItems(i, n));
    AsciiFormEncodes(PromptItems(j, m));
    Utf8RoundTrip(PromptText(i, n));
    Utf8RoundTrip(PromptText(j, m));
    PromptTextIff(i, n, j, m);
  }
}
