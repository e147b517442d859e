/** The `Command` record sent to the automation engine, and its payload:
    the four slots joined by newlines. */
module Commands {
  import opened Text

  /** The value of every argument slot a caller leaves unset. */
  const Placeholder: string := " "

  datatype Option<T> = None | Some(value: T)

  /** One request to the engine: the operation name (the source's
      `function` field) and three argument slots defaulting to a single
      space. */
  datatype Command = Command(
    operation: string,
    arg1: string := Placeholder,
    arg2: string := Placeholder,
    arg3: string := Placeholder)

  /** The four slots of the payload, in the order they are sent. They are
      the payload's lines only when none of them holds a newline. */
  function Slots(c: Command): (lines: seq<string>)
    ensures |lines| == 4
    ensures lines[0] == c.operation
  {
    [c.operation, c.arg1, c.arg2, c.arg3]
  }

  /** `"\n".join([function, arg_1, arg_2, arg_3])` */
  function Payload(c: Command): (p: string)
    ensures p == c.operation + "\n" + c.arg1 + "\n" + c.arg2 + "\n" + c.arg3
  {
    var lines := Slots(c);
    assert lines[1..] == [c.arg1, c.arg2, c.arg3];
    assert lines[1..][1..] == [c.arg2, c.arg3];
    assert lines[1..][1..][1..] == [c.arg3];
    assert Join(lines[1..][1..], '\n') == c.arg2 + "\n" + c.arg3;
    assert Join(lines[1..], '\n') == c.arg1 + "\n" + (c.arg2 + "\n" + c.arg3);
    Join(lines, '\n')
  }

  predicate NoNewlines(c: Command) {
    FreeOf(Slots(c), '\n')
  }

  /** When no slot holds a newline, the payload splits back into exactly
      its four slots. */
  lemma PayloadRoundTrip(c: Command)
    requires NoNewlines(c)
    ensures Split(Payload(c), '\n') == Slots(c)
    ensures |Split(Payload(c), '\n')| == 4
  {
    SplitJoin(Slots(c), '\n');
  }

  /** The payload holds three separating newlines plus whatever the slots
      contain; so exactly three when the slots hold none. */
  lemma PayloadNewlineCount(c: Command)
    ensures multiset(Payload(c))['\n'] == 3 + multiset(c.operation)['\n']
      + multiset(c.arg1)['\n'] + multiset(c.arg2)['\n'] + multiset(c.arg3)['\n']
    ensures NoNewlines(c) ==> multiset(Payload(c))['\n'] == 3
  {
    var lines := Slots(c);
    JoinCount(lines, '\n');
    assert lines[1..] == [c.arg1, c.arg2, c.arg3];
    assert lines[1..][1..] == [c.arg2, c.arg3];
    assert lines[1..][1..][1..] == [c.arg3];
    assert lines[1..][1..][1..][1..] == [];
    assert CountIn(lines[1..][1..][1..], '\n') == multiset(c.arg3)['\n'];
    assert CountIn(lines[1..][1..], '\n') == multiset(c.arg2)['\n'] + multiset(c.arg3)['\n'];
    assert CountIn(lines, '\n') == multiset(c.operation)['\n']
      + multiset(c.arg1)['\n'] + multiset(c.arg2)['\n'] + multiset(c.arg3)['\n'];
    if NoNewlines(c) {
      assert '\n' !in c.operation && '\n' !in c.arg1 && '\n' !in c.arg2 && '\n' !in c.arg3 by {
        assert lines[0] == c.operation && lines[1] == c.arg1;
        assert lines[2] == c.arg2 && lines[3] == c.arg3;
      }
    }
  }

  /** Distinct newline-free commands have distinct payloads: the receiving
      side can recover the command from the text alone. */
  lemma PayloadInjective(c: Command, d: Command)
    requires NoNewlines(c) && NoNewlines(d)
    requires Payload(c) == Payload(d)
    ensures c == d
  {
    PayloadRoundTrip(c);
    PayloadRoundTrip(d);
    assert Slots(c) == Slots(d);
    assert Slots(c)[1] == c.arg1 && Slots(d)[1] == d.arg1;
    assert Slots(c)[2] == c.arg2 && Slots(d)[2] == d.arg2;
    assert Slots(c)[3] == c.arg3 && Slots(d)[3] == d.arg3;
  }

  /** A command built from the operation name alone carries three
      single-space slots, so a zero-argument call sends
      `name + "\n \n \n "`. */
  lemma OmittedSlotsArePlaceholders(operation: string)
    ensures Slots(Command(operation)) == [operation, " ", " ", " "]
    ensures Payload(Command(operation)) == operation + "\n \n \n "
  {
  }

  /** The engine reads four lines plus one for every newline inside a slot. */
  lemma PayloadLineCount(c: Command)
    ensures |Split(Payload(c), '\n')| == 4 + multiset(c.operation)['\n']
      + multiset(c.arg1)['\n'] + multiset(c.arg2)['\n'] + multiset(c.arg3)['\n']
  {
    PayloadNewlineCount(c);
    SplitCount(Payload(c), '\n');
  }

  /** As written, nothing keeps a newline out of a slot, and every newline
      inside a slot adds a line: the engine then reads more than the four
      lines the payload is documented to have. */
  lemma NewlineInSlotAddsLines(c: Command)
    requires !NoNewlines(c)
    ensures |Split(Payload(c), '\n')| > 4
  {
    PayloadLineCount(c);
    var lines := Slots(c);
    var i :| 0 <= i < 4 && '\n' in lines[i];
    assert multiset(lines[i])['\n'] > 0;
  }

  /** The payload as documented: exactly the four slots as four lines, and
      no payload at all for a command whose slots would break that shape. */
  function CheckedPayload(c: Command): (r: Option<string>)
    ensures r.Some? <==> NoNewlines(c)
    ensures r.Some? ==> Split(r.value, '\n') == Slots(c)
    ensures r.Some? ==> multiset(r.value)['\n'] == 3
  {
    if !NoNewlines(c) then None
    else
      PayloadRoundTrip(c);
      PayloadNewlineCount(c);
      Some(Payload(c))
  }
}
