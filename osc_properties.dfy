/**
 * The oscilloscope property interface between the front end and the
 * drivers. Every access writes the property only when the input is
 * acceptable and then reads it back: numbers must parse, booleans are the
 * text 'true', and list inputs are split on brackets, quotes, commas and
 * spaces and accepted only when every piece parses. Python's `float()` and
 * `int()` are the `parse` parameters.
 */
module OscProperties {
  import opened Common
  import opened Device
  import TO = TiepieOsc
  import M = MathOsc
  import C = Connector

  // ---------------------------------------------------------------------
  // Splitting list inputs

  /** The characters of the list filter `[][\'\", ]`. */
  const ListSeparators: set<char> := {'[', ']', '\'', '"', ',', ' '}

  predicate FreeOfSeparators(w: string)
  {
    forall i :: 0 <= i < |w| ==> w[i] !in ListSeparators
  }

  /** `re.split` with the list filter: the text between separators, empty pieces included. */
  function SplitOnSeparators(s: string): (pieces: seq<string>)
    ensures |pieces| >= 1
    decreases |s|
  {
    if s == [] then [""]
    else
      var rest := SplitOnSeparators(s[1..]);
      if s[0] in ListSeparators then [""] + rest
      else [[s[0]] + rest[0]] + rest[1..]
  }

  /** `list(filter(None, pieces))`: the non-empty pieces, in order. */
  function NonEmptyPieces(pieces: seq<string>): (r: seq<string>)
    ensures forall p :: p in r <==> p in pieces && p != []
  {
    if pieces == [] then []
    else (if pieces[0] == [] then [] else [pieces[0]]) + NonEmptyPieces(pieces[1..])
  }

  /** The tokens of a list input. */
  function Tokens(s: string): seq<string>
  {
    NonEmptyPieces(SplitOnSeparators(s))
  }

  /** One step of the split: a separator starts a new piece, any other character extends the first. */
  lemma SplitCons(x: char, t: string)
    ensures SplitOnSeparators([x] + t) ==
      if x in ListSeparators then [""] + SplitOnSeparators(t)
      else [[x] + SplitOnSeparators(t)[0]] + SplitOnSeparators(t)[1..]
  {
    assert ([x] + t)[0] == x && ([x] + t)[1..] == t;
  }

  /** A separator ends one piece and starts the next: splitting distributes over it. */
  lemma {:induction false} SplitAtSeparator(a: string, c: char, b: string)
    requires c in ListSeparators
    ensures SplitOnSeparators(a + [c] + b) == SplitOnSeparators(a) + SplitOnSeparators(b)
    decreases |a|
  {
    if a == [] {
      assert a + [c] + b == [c] + b;
      SplitCons(c, b);
    } else {
      var t := a[1..];
      assert a == [a[0]] + t;
      assert a + [c] + b == [a[0]] + (t + [c] + b);
      SplitAtSeparator(t, c, b);
      SplitPrepend(a[0], SplitOnSeparators(t + [c] + b), SplitOnSeparators(t), SplitOnSeparators(b));
      SplitCons(a[0], t + [c] + b);
      SplitCons(a[0], t);
    }
  }

  /** Prepending a character to both sides of a split that distributes keeps it distributing. */
  lemma SplitPrepend(x: char, whole: seq<string>, front: seq<string>, back: seq<string>)
    requires |front| >= 1 && whole == front + back
    ensures x in ListSeparators ==> [""] + whole == ([""] + front) + back
    ensures x !in ListSeparators ==>
      [[x] + whole[0]] + whole[1..] == ([[x] + front[0]] + front[1..]) + back
  {
    assert whole[0] == front[0];
    assert whole[1..] == front[1..] + back;
  }

  /** Text without separators is a single piece. */
  lemma {:induction false} SplitWord(w: string)
    requires FreeOfSeparators(w)
    ensures SplitOnSeparators(w) == [w]
    decreases |w|
  {
    if w != [] {
      SplitWord(w[1..]);
      assert [w[0]] + w[1..] == w;
    }
  }

  /** No piece contains a separator. */
  lemma {:induction false} PiecesFree(s: string)
    ensures forall p :: p in SplitOnSeparators(s) ==> FreeOfSeparators(p)
    decreases |s|
  {
    if s != [] {
      PiecesFree(s[1..]);
      var rest := SplitOnSeparators(s[1..]);
      if s[0] !in ListSeparators {
        assert rest[0] in rest;
        forall p | p in [[s[0]] + rest[0]] + rest[1..] ensures FreeOfSeparators(p) {
          if p !in rest[1..] {
            assert p == [s[0]] + rest[0];
          } else {
            assert p in rest;
          }
        }
      }
    }
  }

  lemma {:induction false} NonEmptyAppend(x: seq<string>, y: seq<string>)
    ensures NonEmptyPieces(x + y) == NonEmptyPieces(x) + NonEmptyPieces(y)
    decreases |x|
  {
    if x == [] {
      assert x + y == y;
    } else {
      assert (x + y)[0] == x[0];
      assert (x + y)[1..] == x[1..] + y;
      NonEmptyAppend(x[1..], y);
    }
  }

  /**
   * The tokenizer, characterised: no input yields tokens at a separator,
   * text without separators is one token, every token is non-empty and free
   * of separators.
   */
  lemma TokensAtSeparator(a: string, c: char, b: string)
    requires c in ListSeparators
    ensures Tokens(a + [c] + b) == Tokens(a) + Tokens(b)
  {
    SplitAtSeparator(a, c, b);
    NonEmptyAppend(SplitOnSeparators(a), SplitOnSeparators(b));
  }

  lemma TokensOfWord(w: string)
    requires w != [] && FreeOfSeparators(w)
    ensures Tokens(w) == [w]
  {
    SplitWord(w);
    assert NonEmptyPieces([w]) == [w] + NonEmptyPieces([]);
  }

  lemma TokensSpec(s: string)
    ensures forall t :: t in Tokens(s) ==> t != [] && FreeOfSeparators(t)
  {
    PiecesFree(s);
  }

  /** A two-element list written in Python's notation is split into its elements. */
  lemma {:induction false} TokensOfPair(w1: string, w2: string)
    requires w1 != [] && FreeOfSeparators(w1) && w2 != [] && FreeOfSeparators(w2)
    ensures Tokens(['['] + w1 + [',', ' '] + w2 + [']']) == [w1, w2]
  {
    TokensOfWord(w1);
    TokensOfWord(w2);
    assert Tokens([]) == [];
    var s3 := w2 + [']'] + [];
    TokensAtSeparator(w2, ']', []);
    var s2 := [] + [' '] + s3;
    TokensAtSeparator([], ' ', s3);
    var s1 := w1 + [','] + s2;
    TokensAtSeparator(w1, ',', s2);
    var s0 := [] + ['['] + s1;
    TokensAtSeparator([], '[', s1);
    assert s0 == ['['] + w1 + [',', ' '] + w2 + [']'];
  }

  lemma TokensOfPythonList()
    ensures Tokens("[1.5, 2]") == ["1.5", "2"]
  {
    TokensOfPair("1.5", "2");
    assert ['['] + "1.5" + [',', ' '] + "2" + [']'] == "[1.5, 2]";
  }

  // ---------------------------------------------------------------------
  // Accepting inputs

  /**
   * The conversion of the tokens: every token's value when there is at
   * least one token and every one parses, otherwise nothing.
   */
  function Converted(toks: seq<string>, parse: string -> Option<real>): (w: Option<seq<real>>)
    ensures w.Some? ==> |w.value| == |toks| > 0
  {
    if toks != [] && forall i :: 0 <= i < |toks| ==> parse(toks[i]).Some? then
      Some(seq(|toks|, i requires 0 <= i < |toks| && parse(toks[i]).Some? => parse(toks[i]).value))
    else None
  }

  /** What a list access writes; with no input, nothing. */
  function ListInput(value: Option<string>, parse: string -> Option<real>): (w: Option<seq<real>>)
    ensures w.Some? ==> value.Some? && |w.value| == |Tokens(value.value)| > 0
  {
    if value.None? then None else Converted(Tokens(value.value), parse)
  }

  /** A token of the list, either still text or already converted. */
  datatype Item = Text(text: string) | Number(x: real)

  /**
   * The conversion loop of `_trig_lvl_thread`, `_trig_hyst_thread` and
   * `_trig_time_thread`: convert the tokens one by one in place, stopping
   * at the first that does not parse.
   */
  method ConvertTokens(toks: seq<string>, parse: string -> Option<real>) returns (write: Option<seq<real>>)
    ensures write == Converted(toks, parse)
  {
    var items := new Item[|toks|](k requires 0 <= k < |toks| => Text(toks[k]));
    var valid := false;
    var i := 0;
    if items.Length > 0 {
      valid := true;
      while i < items.Length
        invariant 0 <= i <= items.Length && valid
        invariant forall k :: 0 <= k < i ==> parse(toks[k]).Some? && items[k] == Number(parse(toks[k]).value)
        invariant forall k :: i <= k < items.Length ==> items[k] == Text(toks[k])
      {
        var p := parse(items[i].text);
        if p.None? {
          valid := false;
          break;
        }
        items[i] := Number(p.value);
        i := i + 1;
      }
    }
    var xs := items[..];
    if valid {
      write := Some(seq(|xs|, k requires 0 <= k < |xs| && xs[k].Number? => xs[k].x));
      assert forall k :: 0 <= k < |toks| ==> parse(toks[k]).Some?;
      ghost var want := Converted(toks, parse);
      assert forall k :: 0 <= k < |toks| ==> want.value[k] == write.value[k];
      assert want.value == write.value;
    } else {
      assert toks == [] || parse(toks[i]).None?;
      write := None;
    }
  }

  /** The list handling of the list accesses: split the input, then convert the tokens. */
  method ParseListInput(value: Option<string>, parse: string -> Option<real>) returns (write: Option<seq<real>>)
    ensures write == ListInput(value, parse)
  {
    if value.None? {
      return None;
    }
    write := ConvertTokens(Tokens(value.value), parse);
  }

  /** A list is written exactly when some token remains and all of them parse, each to its own value. */
  lemma ListInputSpec(value: string, parse: string -> Option<real>)
    ensures ListInput(Some(value), parse).Some? <==>
      Tokens(value) != [] && forall t :: t in Tokens(value) ==> parse(t).Some?
    ensures ListInput(Some(value), parse).Some? ==> forall i :: 0 <= i < |Tokens(value)| ==>
      ListInput(Some(value), parse).value[i] == parse(Tokens(value)[i]).value
  {
    var toks := Tokens(value);
    if Tokens(value) != [] && forall t :: t in toks ==> parse(t).Some? {
      assert forall i :: 0 <= i < |toks| ==> parse(toks[i]).Some? by {
        forall i | 0 <= i < |toks| ensures parse(toks[i]).Some? {
          assert toks[i] in toks;
        }
      }
    }
  }

  /** `float(value)` / `int(value)` inside a try: no input and unparsable input both give nothing. */
  function NumberInput<T>(value: Option<string>, parse: string -> Option<T>): (v: Option<T>)
    ensures v.Some? <==> value.Some? && parse(value.value).Some?
    ensures v.Some? ==> v == parse(value.value)
  {
    if value.None? then None else parse(value.value)
  }

  /** Boolean inputs arrive as text: only 'true' means true, any other text means false. */
  function BoolInput(value: Option<string>): (b: Option<bool>)
    ensures b.None? <==> value.None?
    ensures b == Some(true) <==> value == Some("true")
  {
    match value
    case None => None
    case Some(s) => Some(s == "true")
  }

  // ---------------------------------------------------------------------
  // Accesses, on the TiePie driver and the math oscilloscope

  /** `_sample_freq_thread`: write a parsed number through the driver's setter, then read back. */
  method SampleFreqAccess(osc: TO.TiepieOsc, value: Option<string>, parse: string -> Option<real>) returns (result: real)
    modifies osc`sampleFreq
    ensures result == osc.sampleFreq
    ensures NumberInput(value, parse).None? ==> osc.sampleFreq == old(osc.sampleFreq)
    ensures NumberInput(value, parse).Some? ==>
      osc.sampleFreq == Clamp(1.0, osc.bounds.sampleFreqMax, NumberInput(value, parse).value)
  {
    var v := NumberInput(value, parse);
    if v.Some? {
      osc.SetSampleFreq(v.value);
    }
    result := osc.sampleFreq;
  }

  /** `_rec_len_thread`: the same with an integer. */
  method RecLenAccess(osc: TO.TiepieOsc, value: Option<string>, parse: string -> Option<int>) returns (result: int)
    modifies osc`recLen
    ensures result == osc.recLen
    ensures NumberInput(value, parse).None? ==> osc.recLen == old(osc.recLen)
    ensures NumberInput(value, parse).Some? ==>
      osc.recLen == ClampInt(1, osc.bounds.recLenMax, NumberInput(value, parse).value)
  {
    var v := NumberInput(value, parse);
    if v.Some? {
      osc.SetRecLen(v.value);
    }
    result := osc.recLen;
  }

  /**
   * `_trig_lvl_thread`: an accepted list goes to the channel's setter and
   * the getter's reading is reported: the levels with a trigger, '-'
   * (`None`) without one.
   */
  method TrigLvlAccess(channel: TO.TiepieOscChannel, value: Option<string>, parse: string -> Option<real>)
    returns (result: Option<seq<real>>)
    modifies channel`trigLvl
    ensures result == channel.TrigLvl()
    ensures result.None? <==> !channel.trigAvailable
    ensures ListInput(value, parse).None? || !channel.trigAvailable ==> channel.trigLvl == old(channel.trigLvl)
    ensures ListInput(value, parse).Some? && channel.trigAvailable ==>
      var w := ListInput(value, parse).value;
      channel.trigLvl == w[..MinNat(|w|, channel.lvlCnt)] && result == Some(w[..MinNat(|w|, channel.lvlCnt)])
  {
    var w := ParseListInput(value, parse);
    if w.Some? {
      channel.SetTrigLvl(w.value);
    }
    result := channel.TrigLvl();
  }

  /**
   * `_trig_hyst_thread`: an accepted list goes to the channel's setter and
   * the getter's reading is reported. Outside the window kinds the setter
   * sets the hystereses, which read back. In a window kind it rewrites the
   * two levels instead, and the getter reports their spread over the
   * range, which is the value written. The thread raises (`Raises`) where
   * the setter does, a window kind without levels, and where the getter
   * does, a window kind without levels or with a zero range.
   */
  method TrigHystAccess(channel: TO.TiepieOscChannel, value: Option<string>, parse: string -> Option<real>)
    returns (result: TO.HystReading)
    modifies channel`trigHyst, channel`trigLvl
    ensures !result.Raises? ==> result == channel.TrigHyst()
    ensures result.Dash? <==> !channel.trigAvailable
    ensures result.Raises? <==>
      channel.trigAvailable && TO.WindowKind(channel.trigKind) && (old(channel.trigLvl) == [] || channel.range == 0.0)
    ensures ListInput(value, parse).None? || !channel.trigAvailable ==>
      channel.trigHyst == old(channel.trigHyst) && channel.trigLvl == old(channel.trigLvl)
    ensures ListInput(value, parse).Some? && channel.trigAvailable && !TO.WindowKind(channel.trigKind) ==>
      var w := ListInput(value, parse).value;
      result == TO.Values(channel.trigHyst) && |channel.trigHyst| == MinNat(|w|, channel.hystCnt)
      && (forall i :: 0 <= i < |channel.trigHyst| ==> channel.trigHyst[i] == Clamp(0.0, 1.0, w[i]))
      && channel.trigLvl == old(channel.trigLvl)
    ensures ListInput(value, parse).Some? && channel.trigAvailable && TO.WindowKind(channel.trigKind) && old(channel.trigLvl) != [] ==>
      var w := ListInput(value, parse).value;
      channel.trigHyst == old(channel.trigHyst) && TO.WindowWrite(old(channel.trigLvl), channel.trigLvl, w[0], channel.range)
      && (channel.range != 0.0 && channel.trigLvl[1] <= channel.trigLvl[0] ==> result == TO.Values([w[0]]))
    ensures ListInput(value, parse).Some? && channel.trigAvailable && TO.WindowKind(channel.trigKind) && old(channel.trigLvl) == [] ==>
      channel.trigHyst == old(channel.trigHyst) && channel.trigLvl == old(channel.trigLvl)
  {
    var w := ParseListInput(value, parse);
    if w.Some? {
      var ok := channel.SetTrigHyst(w.value);
      if !ok {
        return TO.Raises;
      }
    }
    result := channel.TrigHyst();
  }

  /**
   * `_trig_time_thread`: as the levels, through the trigger-time setter;
   * the getter shows the times only where the kind takes a condition and
   * the condition is not "none", and '-' (`None`) otherwise.
   */
  method TrigTimeAccess(channel: TO.TiepieOscChannel, value: Option<string>, parse: string -> Option<real>)
    returns (result: Option<seq<real>>)
    modifies channel`trigTime
    ensures result == channel.TrigTime()
    ensures result.None? <==>
      !(channel.trigAvailable && !TO.EdgeKind(channel.trigKind) && channel.trigCondition != "none")
    ensures ListInput(value, parse).None? ==> channel.trigTime == old(channel.trigTime)
    ensures
      && ListInput(value, parse).Some? && channel.trigAvailable && !TO.EdgeKind(channel.trigKind)
      && channel.trigCondition != "none"
      ==>
      var w := ListInput(value, parse).value;
      result == Some(channel.trigTime) && |channel.trigTime| == MinNat(|w|, channel.timeCnt)
      && forall i :: 0 <= i < |channel.trigTime| ==> channel.trigTime[i] == Clamp(0.0, 1.0, w[i])
    ensures !(channel.trigAvailable && !TO.EdgeKind(channel.trigKind) && channel.trigCondition != "none") ==>
      channel.trigTime == old(channel.trigTime)
  {
    var w := ParseListInput(value, parse);
    if w.Some? {
      channel.SetTrigTime(w.value);
    }
    result := channel.TrigTime();
  }

  /**
   * `_start_n_stop_thread` on a TiePie oscilloscope: start when the driver
   * does not mean to run, stop otherwise, and report whether it now means
   * to run. Starting succeeds only with the hardware idle and a channel
   * enabled; stopping fails only with the hardware idle outside 'repeat'.
   */
  method StartNStopTiepie(osc: TO.TiepieOsc) returns (running: bool)
    modifies osc`hwRunning, osc`shouldRun, osc`dataNotFetched
    ensures running == osc.IsRunning()
    ensures !old(osc.shouldRun) ==> (running <==> !old(osc.hwRunning) && osc.SomeEnabled())
    ensures old(osc.shouldRun) ==> (running <==> !old(osc.hwRunning) && osc.measureMode != TO.Repeat)
  {
    if !osc.IsRunning() {
      var _ := osc.Start();
    } else {
      var _ := osc.Stop();
    }
    running := osc.IsRunning();
  }

  /** `_start_n_stop_thread` on the math oscilloscope: afterwards it runs exactly when it was stopped and has an enabled channel. */
  method StartNStopMath(osc: M.MathOsc) returns (running: bool)
    modifies osc`running
    ensures running == osc.running
    ensures running <==> !old(osc.running) && osc.SomeEnabled()
  {
    if !osc.running {
      var _ := osc.Start();
    } else {
      var _ := osc.Stop();
    }
    running := osc.running;
  }

  /**
   * `_remove_ch_thread`: a refused removal (running, or one channel left)
   * touches neither the oscilloscope nor the front end. A removal hides the
   * removed channel from the front end and then reports it to the
   * connector's channel list update: when it was the selected channel of
   * the selected oscilloscope, the selection falls back to the channel
   * numbered one less, or else to the first.
   */
  method RemoveChAccess(conn: C.Connector, osc: M.MathOsc) returns (removed: Option<ChannelId>)
    requires conn.Valid() && osc.Valid()
    modifies osc`ch, conn`visible, conn`fullStops, conn`sel
    modifies (set cb | cb in osc.LastCallbacks() :: cb.target)`operand1
    modifies (set cb | cb in osc.LastCallbacks() :: cb.target)`operand2
    ensures conn.Valid() && osc.Valid()
    ensures removed.Some? <==> !osc.running && |old(osc.ch)| > 1
    ensures removed.None? ==>
      osc.ch == old(osc.ch) && conn.visible == old(conn.visible) && conn.fullStops == old(conn.fullStops)
      && conn.sel == old(conn.sel)
    ensures removed.Some? ==>
      && osc.ch == old(osc.ch)[..|old(osc.ch)| - 1]
      && removed.value == old(osc.ch)[|old(osc.ch)| - 1].chan.id
      && (forall cb :: cb in old(osc.LastCallbacks()) ==> cb.target.Operand(cb.slot) == None)
      && (forall cb :: cb in old(osc.LastCallbacks()) ==>
            (cb.target.operand1 == None || cb.target.operand1 == old(cb.target.operand1))
            && (cb.target.operand2 == None || cb.target.operand2 == old(cb.target.operand2)))
    ensures removed.Some? && !(osc.id in old(conn.visible) && removed.value.no in old(conn.visible)[osc.id].nos) ==>
      conn.visible == old(conn.visible) && conn.fullStops == old(conn.fullStops)
    ensures removed.Some? && osc.id in old(conn.visible) && removed.value.no in old(conn.visible)[osc.id].nos ==>
      var e := old(conn.visible)[osc.id];
      var rest := C.Toggled(e.nos, removed.value.no);
      && removed.value.no !in rest
      && (rest == [] ==> conn.visible == old(conn.visible) - {osc.id} && conn.fullStops == old(conn.fullStops) + [e.dev])
      && (rest != [] ==>
            conn.visible == old(conn.visible)[osc.id := e.(nos := rest)] && conn.fullStops == old(conn.fullStops))
    ensures removed.Some? ==>
      var s := old(conn.sel);
      if s.osc.Some? && s.osc.value.id == osc.id && s.oscCh.Some? && s.oscCh.value.id == removed.value
         && s.osc.value.ch != []
      then conn.sel == s.(oscCh := Some(C.Fallback(s.osc.value.ch, removed.value.no)))
      else conn.sel == s
  {
    removed := osc.RemoveCh();
    if removed.Some? {
      conn.RemoveVisibleCh(osc.id, removed.value.no);
      var _ := conn.ChannelRemoved(osc.id, removed.value);
    }
  }
}
