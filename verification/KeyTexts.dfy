/**
  Keys of a channel as one text (GetKeys and Update in model/channel.go): which lists of
  keys survive being joined, stored and read again.
 */
module KeyTexts {
  import opened Prelude
  import opened Lists
  import opened Text
  import opened MultiKey

  predicate ReadsAsArray(json: Json, text: string) {
    LooksLikeArray(text) && json(TrimSpace(text)).Some?
  }

  /** No key spans lines, and the first and the last key are not empty. */
  ghost predicate OneLineEach(keys: seq<string>) {
    && keys != [] && keys[0] != "" && Last(keys) != ""
    && forall i :: 0 <= i < |keys| ==> '\n' !in keys[i]
  }

  /** The condition under which joined keys read back, on the keys alone. */
  ghost predicate Storable(json: Json, keys: seq<string>) {
    var text := Join(keys, '\n');
    if ReadsAsArray(json, text) then json(TrimSpace(text)).value == keys else OneLineEach(keys)
  }

  lemma LinesReadBack(keys: seq<string>)
    requires OneLineEach(keys)
    ensures Join(keys, '\n') != "" && Lines(Join(keys, '\n')) == keys
  {
    var text := Join(keys, '\n');
    JoinBare(keys, '\n');
    TrimIsBare(text, Only('\n'));
    SplitJoin(keys, '\n');
  }

  /** What reads back as lines is one line each. */
  lemma LinesAreOneLineEach(text: string)
    requires Lines(text) != [""]
    ensures OneLineEach(Lines(text))
  {
    var bare := Trim(text, Only('\n'));
    TrimIsBare(text, Only('\n'));
    PiecesPlain(bare, '\n');
    SplitFirst(bare, '\n');
    SplitLast(bare, '\n');
    assert forall i :: 0 <= i < |Lines(text)| ==> Lines(text)[i] in Split(bare, '\n');
  }

  lemma JoinIsEmpty(keys: seq<string>)
    requires keys != []
    ensures Join(keys, '\n') == "" <==> keys == [""]
  {
  }

  /** Joined keys read back as themselves exactly when they are storable. */
  lemma ReadsBackExactlyWhen(json: Json, keys: seq<string>)
    requires keys != []
    ensures var text := Join(keys, '\n');
      text != "" && GetKeys(json, text) == keys <==> Storable(json, keys)
  {
    var text := Join(keys, '\n');
    JoinIsEmpty(keys);
    if !ReadsAsArray(json, text) {
      if OneLineEach(keys) {
        LinesReadBack(keys);
      }
      if text != "" && Lines(text) == keys {
        LinesAreOneLineEach(text);
      }
    } else {
      TrimOfNothing();
    }
  }

  lemma TrimOfNothing()
    ensures !LooksLikeArray("")
  {
  }

  /** A first key that opens no array is enough beside single lines. */
  lemma PlainKeysStorable(json: Json, keys: seq<string>)
    requires OneLineEach(keys) && TrimLeft(keys[0], Space) != "" && TrimLeft(keys[0], Space)[0] != '['
    ensures Storable(json, keys)
  {
    if |keys| == 1 {
      assert keys[0] + "" == keys[0];
      OpensPlainly(keys[0], "");
    } else {
      var rest := ['\n'] + Join(keys[1..], '\n');
      assert Join(keys, '\n') == keys[0] + rest;
      OpensPlainly(keys[0], rest);
    }
  }

  lemma OpensPlainly(a: string, b: string)
    requires TrimLeft(a, Space) != "" && TrimLeft(a, Space)[0] != '['
    ensures !LooksLikeArray(a + b)
  {
    TrimLeftPrefix(a, b, Space);
    TrimLeftBare(a, Space);
    TrimRightKeepsFirst(TrimLeft(a + b, Space), Space);
  }

  // ---- how many keys are read back ------------------------------------------------------------------

  function Breaks(s: string): nat {
    multiset(s)['\n']
  }

  /** Line breaks inside the keys. */
  function BreaksInside(keys: seq<string>): nat {
    if keys == [] then 0 else Breaks(keys[0]) + BreaksInside(keys[1..])
  }

  lemma {:induction false} SplitCounts(s: string)
    ensures |Split(s, '\n')| == 1 + Breaks(s)
  {
    if s != "" {
      SplitCounts(s[1..]);
      assert s == [s[0]] + s[1..];
    }
  }

  lemma {:induction false} JoinBreaks(keys: seq<string>)
    requires keys != []
    ensures Breaks(Join(keys, '\n')) == |keys| - 1 + BreaksInside(keys)
    decreases |keys|
  {
    if |keys| == 1 {
      assert BreaksInside(keys[1..]) == 0;
    } else {
      JoinBreaks(keys[1..]);
    }
  }

  lemma {:induction false} TrimLeftBreaks(s: string)
    ensures Breaks(s) - Breaks(TrimLeft(s, Only('\n'))) == |s| - |TrimLeft(s, Only('\n'))|
  {
    if s != "" && s[0] == '\n' {
      TrimLeftBreaks(s[1..]);
      assert s == [s[0]] + s[1..];
    }
  }

  lemma {:induction false} TrimRightBreaks(s: string)
    ensures Breaks(s) - Breaks(TrimRight(s, Only('\n'))) == |s| - |TrimRight(s, Only('\n'))|
  {
    if s != "" && s[|s| - 1] == '\n' {
      TrimRightBreaks(s[..|s| - 1]);
      assert s == s[..|s| - 1] + [s[|s| - 1]];
    }
  }

  /** The condition under which as many keys are read back, on the keys alone: the ends lose what the inside adds. */
  predicate CountsBack(json: Json, keys: seq<string>) {
    var text := Join(keys, '\n');
    if ReadsAsArray(json, text) then |json(TrimSpace(text)).value| == |keys|
    else keys != [""] && BreaksInside(keys) == |text| - |Trim(text, Only('\n'))|
  }

  /** As many keys are read back as were joined exactly when line breaks inside keys and at the ends balance. */
  lemma CountsBackExactlyWhen(json: Json, keys: seq<string>)
    requires keys != []
    ensures var text := Join(keys, '\n');
      text != "" && |GetKeys(json, text)| == |keys| <==> CountsBack(json, keys)
  {
    var text := Join(keys, '\n');
    JoinIsEmpty(keys);
    TrimOfNothing();
    JoinBreaks(keys);
    SplitCounts(Trim(text, Only('\n')));
    TrimLeftBreaks(text);
    TrimRightBreaks(TrimLeft(text, Only('\n')));
  }

  /** A text opens an array when its first character that is not white space is a bracket. */
  lemma OpensArray(text: string)
    ensures LooksLikeArray(text) <==> TrimSpace(text) != "" && TrimSpace(text)[0] == '['
  {
  }

  /** An appended text is read as its lines, or for Vertex AI as one key, or as the array that it opens if that parses. */
  lemma CandidatesAre(text: string, batch: Batch)
    ensures batch.ByLines? ==> Candidates(text, batch).Some?
    ensures batch.ByLines? ==>
      var lines := Candidates(text, batch).value; Join(lines, '\n') == text && forall l :: l in lines ==> '\n' !in l
    ensures batch.Vertex? ==>
      Candidates(text, batch) == if TrimSpace(text) != "" && TrimSpace(text)[0] == '[' then batch.parsed else Some([text])
  {
    if batch.ByLines? {
      JoinSplit(text, '\n');
      PiecesPlain(text, '\n');
    } else {
      OpensArray(text);
    }
  }

  predicate EmptyArray(json: Json, text: string) {
    text != "" && LooksLikeArray(text) && json(TrimSpace(text)) == Some([])
  }

  /** Update's own count is the number of keys exactly when the text does not read as an empty array. */
  lemma CountExactlyWhen(json: Json, text: string)
    ensures CountKeys(json, text) == |GetKeys(json, text)| <==> !EmptyArray(json, text)
  {
  }

  lemma StorableIsCounted(json: Json, keys: seq<string>)
    requires keys != [] && Storable(json, keys)
    ensures var text := Join(keys, '\n');
      text != "" && GetKeys(json, text) == keys && !EmptyArray(json, text)
  {
    ReadsBackExactlyWhen(json, keys);
  }

  /** An append reads the stored keys the way GetKeys does exactly when a text that opens an array parses. */
  lemma AppendReadsKeysExactlyWhen(json: Json, text: string)
    requires text != "" && GetKeys(json, text) != []
    ensures ExistingKeys(json, text) == GetKeys(json, text) <==> !(LooksLikeArray(text) && json(TrimSpace(text)).None?)
  {
  }

  /** After a delete or a sweep the stored keys are the kept ones exactly when those are storable. */
  lemma KeptKeysReadBackExactlyWhen(json: Json, stored: Row, kept: seq<string>, info: Info)
    requires kept != [] && |kept| < |GetKeys(json, stored.key)|
    ensures GetKeys(json, Update(json, stored, Row(Join(kept, '\n'), info)).key) == kept <==> Storable(json, kept)
  {
    ReadsBackExactlyWhen(json, kept);
  }
}
