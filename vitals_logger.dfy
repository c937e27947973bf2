/**
 * The vitals logger: free text goes to the model, the JSON list it answers
 * with is cleaned of markdown fences, parsed, timestamped and put in front of
 * the log.
 */
module VitalsLogger {
  import opened Prelude
  import JsText

  const JsonFence := "```json"
  const Fence := "```"

  /**
   * `replace(/```json|```/g, '')`: one left-to-right scan that, at each
   * position, drops "```json" if it starts there, else "```", else keeps the
   * character.
   */
  function StripFences(s: string): (r: string)
    ensures |r| <= |s|
    decreases |s|
  {
    if |s| >= 7 && s[..7] == JsonFence then StripFences(s[7..])
    else if |s| >= 3 && s[..3] == Fence then StripFences(s[3..])
    else if s == [] then []
    else [s[0]] + StripFences(s[1..])
  }

  /** The cleaned reply: fences stripped, then trimmed. */
  function CleanJson(s: string): (r: string)
    ensures |r| <= |s|
    ensures r == [] || (!JsText.IsWhitespace(r[0]) && !JsText.IsWhitespace(r[|r| - 1]))
  {
    JsText.Trim(StripFences(s))
  }

  /** A character that is not a backtick is never part of a fence, so it is kept. */
  lemma KeepsNonBacktick(s: string)
    requires s != [] && s[0] != '`'
    ensures StripFences(s) == [s[0]] + StripFences(s[1..])
  {
    if |s| >= 3 {
      assert s[..3][0] != Fence[0];
    }
    if |s| >= 7 {
      assert s[..7][0] != JsonFence[0];
    }
  }

  /** Text without backticks passes through unchanged. */
  lemma {:induction false} NoBacktickUnchanged(s: string)
    requires forall k :: 0 <= k < |s| ==> s[k] != '`'
    ensures StripFences(s) == s
    decreases |s|
  {
    if s != [] {
      KeepsNonBacktick(s);
      NoBacktickUnchanged(s[1..]);
    }
  }

  /** A backtick-free body followed by a closing fence loses only the fence. */
  lemma {:induction false} ClosingFenceDropped(body: string)
    requires forall k :: 0 <= k < |body| ==> body[k] != '`'
    ensures StripFences(body + Fence) == body
    decreases |body|
  {
    if body == [] {
      assert body + Fence == Fence;
    } else {
      KeepsNonBacktick(body + Fence);
      assert (body + Fence)[1..] == body[1..] + Fence;
      ClosingFenceDropped(body[1..]);
    }
  }

  /** The usual reply, a JSON body inside a json-tagged code block, cleans to the trimmed body. */
  lemma FencedReplyCleans(body: string)
    requires forall k :: 0 <= k < |body| ==> body[k] != '`'
    ensures CleanJson(JsonFence + body + Fence) == JsText.Trim(body)
  {
    var s := JsonFence + body + Fence;
    assert s[..7] == JsonFence;
    assert s[7..] == body + Fence;
    ClosingFenceDropped(body);
  }

  /**
   * A run of backticks longer than a fence is consumed three at a time from its
   * left, so "````json" keeps one backtick and the word: the scan does not
   * remove every "```json" the input contains.
   */
  lemma OneScanExample()
    ensures StripFences("````json") == "`json"
  {
    var s := "````json";
    assert s[..7] != JsonFence by { assert s[3] != JsonFence[3]; }
    assert s[..3] == Fence;
    assert s[3..] == "`json";
    var t := "`json";
    assert t[..3] != Fence by { assert t[1] != Fence[1]; }
    assert t[1..] == "json";
    NoBacktickUnchanged("json");
  }

  /**
   * No fence survives the scan: a backtick is kept only when fewer than three
   * start at its position, so the output never holds three in a row.
   */
  lemma {:induction false} NoFenceLeft(s: string)
    ensures forall k :: !JsText.OccursAt(StripFences(s), Fence, k)
    decreases |s|
  {
    if |s| >= 7 && s[..7] == JsonFence {
      NoFenceLeft(s[7..]);
    } else if |s| >= 3 && s[..3] == Fence {
      NoFenceLeft(s[3..]);
    } else if s != [] {
      NoFenceLeft(s[1..]);
      KeptCharStartsNoFence(s);
      PrependKeepsNoFence(s[0], StripFences(s[1..]));
    }
  }

  /** A kept first character does not start three backticks together with what the rest cleans to. */
  lemma KeptCharStartsNoFence(s: string)
    requires s != [] && !(|s| >= 7 && s[..7] == JsonFence) && !(|s| >= 3 && s[..3] == Fence)
    ensures var rest := StripFences(s[1..]);
      !(|rest| >= 2 && s[0] == '`' && rest[0] == '`' && rest[1] == '`')
  {
    var rest := StripFences(s[1..]);
    if s[0] == '`' && |s| >= 2 {
      if s[1] != '`' {
        KeepsNonBacktick(s[1..]);
      } else if |s| >= 3 {
        assert s[2] != '`';
        var u := s[1..];
        if |u| >= 3 {
          assert u[..3][1] != Fence[1];
        }
        if |u| >= 7 {
          assert u[..7][1] != JsonFence[1];
        }
        assert rest == [u[0]] + StripFences(u[1..]);
        KeepsNonBacktick(u[1..]);
      } else {
        assert s[1..] == "`";
      }
    }
  }

  /** Putting one character in front of fence-free text makes a fence only if it and the next two are backticks. */
  lemma PrependKeepsNoFence(c: char, rest: string)
    requires forall k :: !JsText.OccursAt(rest, Fence, k)
    requires !(|rest| >= 2 && c == '`' && rest[0] == '`' && rest[1] == '`')
    ensures forall k :: !JsText.OccursAt([c] + rest, Fence, k)
  {
    var r := [c] + rest;
    forall k | 0 <= k ensures !JsText.OccursAt(r, Fence, k) {
      if k >= 1 {
        if k + 3 <= |r| {
          assert r[k..k + 3] == rest[k - 1..k + 2];
          assert !JsText.OccursAt(rest, Fence, k - 1);
        }
      } else if |r| >= 3 {
        assert r[..3][0] == c && r[..3][1] == rest[0] && r[..3][2] == rest[1];
        assert Fence[0] == '`' && Fence[1] == '`' && Fence[2] == '`';
        assert r[..3] != Fence;
      }
    }
  }


  /** The fields of one parsed reading, as the model returns them. */
  datatype VitalFields = VitalFields(kind: string, value: string, unit: string)

  /** One logged reading. */
  datatype Vital = Vital(kind: string, value: string, unit: string, timestamp: int)

  /**
   * `data.map(d => ({ ...d, timestamp: Date.now() }))`, where `clock(i)` is the
   * clock reading taken while mapping entry `i`.
   */
  function Stamp(data: seq<VitalFields>, clock: nat -> int): (r: seq<Vital>)
    ensures |r| == |data|
    ensures forall i :: 0 <= i < |data| ==>
      r[i] == Vital(data[i].kind, data[i].value, data[i].unit, clock(i))
  {
    seq(|data|, i requires 0 <= i < |data| => Vital(data[i].kind, data[i].value, data[i].unit, clock(i)))
  }

  /** When the clock does not advance during the mapping, every new entry shares one timestamp. */
  lemma SharedTimestamp(data: seq<VitalFields>, clock: nat -> int, now: int)
    requires forall i :: 0 <= i < |data| ==> clock(i) == now
    ensures forall v :: v in Stamp(data, clock) ==> v.timestamp == now
  {
  }

  /** The logger's state. */
  datatype LoggerState = LoggerState(input: string, logs: seq<Vital>, loading: bool)

  /**
   * Logging does something only when `input.trim()` is non-empty. The test is
   * made on the characters: the input is not all whitespace.
   */
  predicate WillSend(state: LoggerState) {
    !JsText.AllWhitespace(state.input)
  }

  /** The guard on the characters is the guard the code writes: `input.trim()` non-empty. */
  lemma WillSendIff(state: LoggerState)
    ensures WillSend(state) <==> JsText.Trim(state.input) != []
  {
    JsText.TrimEmptyIff(state.input);
  }

  /**
   * `handleLog`, given the model's reply and `parse` standing for `JSON.parse`
   * followed by `map` (`None` when either throws). Only a non-empty reply that
   * parses changes the log and clears the input; loading ends false whenever
   * the input was sent.
   */
  function HandleLog(state: LoggerState, reply: Outcome<Option<string>>,
                     parse: string -> Option<seq<VitalFields>>, clock: nat -> int): (r: LoggerState)
    ensures !WillSend(state) ==> r == state
    ensures WillSend(state) ==> !r.loading
    ensures |r.logs| >= |state.logs| && r.logs[|r.logs| - |state.logs|..] == state.logs
    ensures r.logs != state.logs ==> r.input == ""
  {
    if !WillSend(state) then state
    else
      var done := state.(loading := false);
      match reply
      case Threw => done
      case Returned(text) =>
        if text.None? || text.value == "" then done
        else
          match parse(CleanJson(text.value))
          case None => done
          case Some(data) => LoggerState("", Stamp(data, clock) + state.logs, false)
  }

  /**
   * A reply that parses puts its entries, fields intact and in parsed order,
   * before all earlier logs, and clears the input; anything else leaves the
   * log and the input as they were.
   */
  lemma HandleLogOutcome(state: LoggerState, reply: Outcome<Option<string>>,
                         parse: string -> Option<seq<VitalFields>>, clock: nat -> int)
    requires WillSend(state)
    ensures var r := HandleLog(state, reply, parse, clock);
      if reply.Returned? && reply.value.Some? && reply.value.value != "" && parse(CleanJson(reply.value.value)).Some? then
        var data := parse(CleanJson(reply.value.value)).value;
        && r.input == ""
        && |r.logs| == |data| + |state.logs|
        && r.logs[|data|..] == state.logs
        && (forall i :: 0 <= i < |data| ==>
              r.logs[i].kind == data[i].kind && r.logs[i].value == data[i].value && r.logs[i].unit == data[i].unit)
      else
        r == state.(loading := false)
  {
  }
}
