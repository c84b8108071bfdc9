/** What the service makes of a chain action's answer. The action itself, a node process, is outside the model. */
module ChainReplies {
  import opened Common
  import opened Database
  import opened Reconcile
  import opened Submitter

  predicate IsSpace(c: char) {
    c == ' ' || c == '\t' || c == '\n' || c == '\r'
  }

  function StripLeft(s: string): string {
    if s != [] && IsSpace(s[0]) then StripLeft(s[1..]) else s
  }

  function StripRight(s: string): string {
    if s != [] && IsSpace(s[|s| - 1]) then StripRight(s[..|s| - 1]) else s
  }

  function OrElse(a: Option<string>, b: string): string {
    match a
    case Some(v) => if v == "" then b else v
    case None => b
  }

  /** An unknown or missing state counts as submitted. */
  function NormalizeState(value: Option<string>): TxState {
    var text := Lower(StripRight(StripLeft(OrElse(value, ""))));
    if text == "confirmed" then Confirmed
    else if text == "failed" then Failed
    else Submitted
  }

  datatype RawReply =
    | Raised(mustBeClosed: bool)
    | Replied(hash: Option<string>, state: Option<string>, fee: Option<string>,
              submittedAt: Option<string>, confirmedAt: Option<string>, error: Option<string>)

  function NonEmpty(s: Option<string>): Option<string> {
    if s == Some("") then None else s
  }

  /**
   The transaction columns of a chain step, or the error it raises. Off a live chain every step is confirmed at once.
   */
  function ReadTx(live: bool, uuid: string, raw: RawReply, now: string): Result<Tx, ServiceError> {
    if !live then Ok(Tx(uuid, Some("0"), Confirmed, now, Some(now), None))
    else if raw.Raised? then Err(ChainTxFailed)
    else if OrElse(raw.hash, "") == "" then Err(ChainTxInvalidResponse)
    else
      var state := NormalizeState(raw.state);
      Ok(Tx(raw.hash.value, raw.fee, state, OrElse(raw.submittedAt, now),
            if state == Confirmed then Some(OrElse(raw.confirmedAt, now)) else None, NonEmpty(raw.error)))
  }

  function ReadCheck(live: bool, raw: RawReply, now: string): Option<CheckResult> {
    if !live then Some(CheckResult(Confirmed, Some("0"), Some(now), None))
    else if raw.Raised? then None
    else
      var state := NormalizeState(raw.state);
      Some(CheckResult(state, raw.fee, if state == Confirmed then Some(OrElse(raw.confirmedAt, now)) else None,
                       NonEmpty(raw.error)))
  }

  /** An accepted reply has a hash, and a confirmation time exactly when it is confirmed. */
  lemma ReadTxShape(live: bool, uuid: string, raw: RawReply, now: string)
    requires ReadTx(live, uuid, raw, now).Ok? && uuid != ""
    ensures ReadTx(live, uuid, raw, now).value.hash != ""
    ensures var tx := ReadTx(live, uuid, raw, now).value; tx.confirmedAt.Some? <==> tx.state == Confirmed
    ensures !live ==> var tx := ReadTx(live, uuid, raw, now).value; tx.hash == uuid && tx.state == Confirmed
  {
  }

  /**
   A look-up that answers gives a confirmation time exactly when it says confirmed; off a live chain it always does.
   */
  lemma ReadCheckShape(live: bool, raw: RawReply, now: string)
    ensures ReadCheck(live, raw, now).None? <==> live && raw.Raised?
    ensures ReadCheck(live, raw, now).Some? ==>
      var r := ReadCheck(live, raw, now).value;
      (r.confirmedAt.Some? <==> r.state == Confirmed) && (!live ==> r.state == Confirmed)
  {
  }

  // ---- What an answer says, on its text ----

  ghost predicate Blanks(s: string) {
    forall i :: 0 <= i < |s| ==> s[i] in {' ', '\t', '\n', '\r'}
  }

  /** The same letters, upper-case ones counting as lower-case. */
  ghost predicate Spells(text: string, word: string) {
    && |text| == |word|
    && forall i :: 0 <= i < |text| ==>
         text[i] == word[i] || ('A' <= text[i] <= 'Z' && text[i] as int + 32 == word[i] as int)
  }

  ghost predicate Surrounds(text: string, a: string, core: string, b: string, word: string) {
    text == a + core + b && Blanks(a) && Blanks(b) && Spells(core, word)
  }

  /** The word in any case, between blanks. */
  ghost predicate Says(text: Option<string>, word: string) {
    text.Some? && exists a, core, b :: Surrounds(text.value, a, core, b, word)
  }

  lemma {:induction false} StripLeftSplits(s: string) returns (a: string)
    ensures s == a + StripLeft(s) && Blanks(a)
    ensures StripLeft(s) != [] ==> !Blanks([StripLeft(s)[0]])
  {
    if s != [] && IsSpace(s[0]) {
      a := StripLeftSplits(s[1..]);
      a := [s[0]] + a;
    } else {
      a := [];
      if s != [] {
        assert [s[0]][0] == s[0];
      }
    }
  }

  lemma {:induction false} StripRightSplits(s: string) returns (b: string)
    ensures s == StripRight(s) + b && Blanks(b)
  {
    if s != [] && IsSpace(s[|s| - 1]) {
      b := StripRightSplits(s[..|s| - 1]);
      b := b + [s[|s| - 1]];
      assert s == s[..|s| - 1] + [s[|s| - 1]];
    } else {
      b := [];
    }
  }

  /** Blanks around a text that neither begins nor ends with one are exactly what is trimmed. */
  lemma {:induction false} StripLeftDrops(a: string, t: string)
    requires Blanks(a) && (t != [] ==> !IsSpace(t[0]))
    ensures StripLeft(a + t) == t
  {
    if a == [] {
      assert a + t == t;
    } else {
      assert (a + t)[1..] == a[1..] + t;
      StripLeftDrops(a[1..], t);
    }
  }

  lemma {:induction false} StripRightDrops(t: string, b: string)
    requires Blanks(b) && (t != [] ==> !IsSpace(t[|t| - 1]))
    ensures StripRight(t + b) == t
    decreases |b|
  {
    if b == [] {
      assert t + b == t;
    } else {
      assert (t + b)[..|t + b| - 1] == t + b[..|b| - 1];
      StripRightDrops(t, b[..|b| - 1]);
    }
  }

  ghost predicate LowerCase(word: string) {
    word != [] && forall i :: 0 <= i < |word| ==> 'a' <= word[i] <= 'z'
  }

  lemma LowerSpells(t: string, word: string)
    requires LowerCase(word)
    ensures Lower(t) == word <==> Spells(t, word)
  {
    if Spells(t, word) {
      assert forall i :: 0 <= i < |t| ==> Lower(t)[i] == word[i];
    }
    if Lower(t) == word {
      assert forall i :: 0 <= i < |t| ==> Lower(t)[i] == word[i];
    }
  }

  lemma SpeltTextHasNoBlanks(t: string, word: string)
    requires LowerCase(word) && Spells(t, word)
    ensures t != [] && !IsSpace(t[0]) && !IsSpace(t[|t| - 1])
  {
  }

  /** Trimmed and lower-cased it is the word exactly when it says the word. */
  lemma TrimmedSays(text: string, word: string)
    requires LowerCase(word)
    ensures Lower(StripRight(StripLeft(text))) == word <==> Says(Some(text), word)
  {
    var core := StripRight(StripLeft(text));
    LowerSpells(core, word);
    if Lower(core) == word {
      var a := StripLeftSplits(text);
      var b := StripRightSplits(StripLeft(text));
      assert Surrounds(text, a, core, b, word);
    }
    if Says(Some(text), word) {
      var a, t, b :| Surrounds(text, a, t, b, word);
      SpeltTextHasNoBlanks(t, word);
      assert a + t + b == a + (t + b);
      StripLeftDrops(a, t + b);
      StripRightDrops(t, b);
    }
  }

  /** Confirmed and failed are read exactly where the text says so; everything else is still submitted. */
  lemma StateIsWhatIsSaid(text: Option<string>)
    ensures NormalizeState(text) == Confirmed <==> Says(text, "confirmed")
    ensures NormalizeState(text) == Failed <==> Says(text, "failed")
    ensures NormalizeState(text) == Submitted <==> !Says(text, "confirmed") && !Says(text, "failed")
  {
    var t := OrElse(text, "");
    assert text.Some? ==> t == text.value;
    TrimmedSays(t, "confirmed");
    TrimmedSays(t, "failed");
    hide Lower, StripLeft, StripRight, Says;
    if text.None? {
      NothingSaysNothing();
    }
  }

  lemma NothingSaysNothing()
    ensures Lower(StripRight(StripLeft(""))) == ""
    ensures !Says(None, "confirmed") && !Says(None, "failed")
  {
  }

  /** The reply's own text where there is one, and otherwise the given one. */
  ghost predicate Taken(value: string, given: Option<string>, otherwise: string) {
    if given.Some? && given.value != "" then given == Some(value) else value == otherwise
  }

  /** Columns and reply agree on state, fee, confirmation time and error. */
  ghost predicate Shown(state: TxState, fee: Option<string>, confirmedAt: Option<string>, error: Option<string>,
                        raw: RawReply, now: string)
    requires raw.Replied?
  {
    && (state == Confirmed <==> Says(raw.state, "confirmed"))
    && (state == Failed <==> Says(raw.state, "failed"))
    && (state == Submitted <==> !Says(raw.state, "confirmed") && !Says(raw.state, "failed"))
    && fee == raw.fee
    && (confirmedAt.Some? <==> Says(raw.state, "confirmed"))
    && (confirmedAt.Some? ==> Taken(confirmedAt.value, raw.confirmedAt, now))
    && (if raw.error == None || raw.error == Some("") then error == None else error == raw.error)
  }

  /** A live look-up shows what its reply says, and gives nothing only when it raises. */
  lemma ReadCheckSays(raw: RawReply, now: string)
    ensures ReadCheck(true, raw, now).None? <==> raw.Raised?
    ensures raw.Replied? ==>
              var r := ReadCheck(true, raw, now).value;
              Shown(r.state, r.fee, r.confirmedAt, r.error, raw, now)
  {
    if raw.Replied? {
      StateIsWhatIsSaid(raw.state);
      hide NormalizeState, Says;
    }
  }

  /** A live chain step raises, or lacks a hash, or records what its reply says under the reply's hash. */
  lemma ReadTxSays(uuid: string, raw: RawReply, now: string)
    ensures ReadTx(true, uuid, raw, now) == Err(ChainTxFailed) <==> raw.Raised?
    ensures ReadTx(true, uuid, raw, now) == Err(ChainTxInvalidResponse) <==>
              raw.Replied? && (raw.hash == None || raw.hash == Some(""))
    ensures raw.Replied? && raw.hash != None && raw.hash != Some("") ==>
              && ReadTx(true, uuid, raw, now).Ok?
              && var tx := ReadTx(true, uuid, raw, now).value;
                 && raw.hash == Some(tx.hash)
                 && Taken(tx.submittedAt, raw.submittedAt, now)
                 && Shown(tx.state, tx.fee, tx.confirmedAt, tx.error, raw, now)
  {
    if raw.Replied? {
      StateIsWhatIsSaid(raw.state);
      hide NormalizeState, Says;
    }
  }
}
