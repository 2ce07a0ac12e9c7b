/**
 * The server's split of a browser frame (main.go, the read loop of the
 * WebSocket handler): the verb is the header up to its first `:`, the
 * resource is the rest of the header, and the payload is everything after
 * the first `$`. A message the split rejects ends the loop.
 */
module ServerFrames {
  import opened Wrappers
  import opened Text

  datatype Command = Command(verb: string, resource: string, payload: string)

  /** The verb has no `:` or `$`, the resource has no `$`, and the payload follows the first `$`. */
  function SplitCommand(msg: string): (r: Option<Command>)
    ensures r.Some? ==> ':' !in r.value.verb && '$' !in r.value.verb && '$' !in r.value.resource
    ensures r.Some? ==> 0 <= IndexOf(msg, '$') && r.value.payload == msg[IndexOf(msg, '$') + 1..]
  {
    var separatorIndex := IndexOf(msg, '$');
    if separatorIndex < 0 then None
    else
      var command := msg[..separatorIndex];
      var commandSeparatorIndex := IndexOf(command, ':');
      if commandSeparatorIndex < 0 then None
      else Some(Command(command[..commandSeparatorIndex], command[commandSeparatorIndex + 1..], msg[separatorIndex + 1..]))
  }

  /**
   * The split is rejected exactly when there is no `$`, or no `:` before it;
   * otherwise its parts put back together give the message, with the verb
   * free of `:` and `$` and the resource free of `$`.
   */
  lemma SplitCommandCharacterized(msg: string)
    ensures SplitCommand(msg).None? <==> ('$' !in msg || ':' !in msg[..IndexOf(msg, '$')])
    ensures SplitCommand(msg).Some? ==>
              var c := SplitCommand(msg).value;
              && c.verb + ":" + c.resource + "$" + c.payload == msg
              && ':' !in c.verb && '$' !in c.verb && '$' !in c.resource
  {
    var i := IndexOf(msg, '$');
    if i >= 0 {
      var command := msg[..i];
      var j := IndexOf(command, ':');
      if j >= 0 {
        var c := SplitCommand(msg).value;
        assert c == Command(command[..j], command[j + 1..], msg[i + 1..]);
        AroundSeparator(command, j, ':');
        AroundSeparator(msg, i, '$');
        assert c.verb + ":" + c.resource == command;
      }
    }
  }

  /** A string is its part before position `i`, the character there, and its part after. */
  lemma AroundSeparator(s: string, i: int, sep: char)
    requires 0 <= i < |s| && s[i] == sep
    ensures s[..i] + [sep] + s[i + 1..] == s
  {
    assert s == s[..i] + s[i..];
    assert s[i..] == [sep] + s[i + 1..];
  }

  /**
   * The inverse: a frame whose verb has no `:` or `$`, and whose resource has
   * no `$`, splits into that verb, resource and payload; so `A:B:C$x` gives
   * verb `A` and resource `B:C`, and later `$`s stay in the payload.
   */
  lemma {:induction false} SplitCommandOfFrame(verb: string, resource: string, payload: string)
    requires ':' !in verb && '$' !in verb && '$' !in resource
    ensures SplitCommand(verb + ":" + resource + "$" + payload) == Some(Command(verb, resource, payload))
  {
    var header := verb + ":" + resource;
    var msg := header + "$" + payload;
    assert verb + ":" + resource + "$" + payload == msg;
    assert '$' !in header;
    IndexOfAfterPrefix(header, '$', payload);
    assert msg[..|header|] == header;
    assert msg[|header| + 1..] == payload;
    IndexOfAfterPrefix(verb, ':', resource);
    assert header[..|verb|] == verb;
    assert header[|verb| + 1..] == resource;
  }

  /** The commands the loop hands on before it reads a message it rejects, or runs out. */
  function Commands(messages: seq<string>): (r: seq<Command>)
    ensures |r| <= |messages|
    ensures forall k :: 0 <= k < |r| ==> SplitCommand(messages[k]) == Some(r[k])
    decreases |messages|
  {
    if messages == [] then []
    else match SplitCommand(messages[0])
      case None => []
      case Some(c) => [c] + Commands(messages[1..])
  }

  /** The `for` loop over incoming messages; the read error that ends it is the end of `messages`. */
  method ReadLoop(messages: seq<string>) returns (dispatched: seq<Command>)
    ensures dispatched == Commands(messages)
  {
    dispatched := [];
    var i := 0;
    while i < |messages|
      invariant 0 <= i <= |messages|
      invariant dispatched + Commands(messages[i..]) == Commands(messages)
      decreases |messages| - i
    {
      assert messages[i..][1..] == messages[i + 1..];
      var c := SplitCommand(messages[i]);
      if c.None? {
        return;
      }
      dispatched := dispatched + [c.value];
      i := i + 1;
    }
  }

  /** Nothing after the first rejected message is handed on: every command comes from the messages before it. */
  lemma {:induction false} CommandsStopAtRejected(messages: seq<string>, i: int)
    requires 0 <= i < |messages| && SplitCommand(messages[i]).None?
    ensures Commands(messages) == Commands(messages[..i])
    decreases i
  {
    if i == 0 {
    } else {
      assert messages[1..][i - 1] == messages[i];
      CommandsStopAtRejected(messages[1..], i - 1);
      assert messages[1..][..i - 1] == messages[..i][1..];
    }
  }

  /** A well-formed message is handed on as its split, one command per message. */
  lemma {:induction false} CommandsOfWellFormed(messages: seq<string>)
    requires forall k :: 0 <= k < |messages| ==> SplitCommand(messages[k]).Some?
    ensures |Commands(messages)| == |messages|
    ensures forall k :: 0 <= k < |messages| ==> Commands(messages)[k] == SplitCommand(messages[k]).value
    decreases |messages|
  {
    if messages != [] {
      assert SplitCommand(messages[0]).Some?;
      CommandsOfWellFormed(messages[1..]);
      forall k | 1 <= k < |messages|
        ensures Commands(messages)[k] == SplitCommand(messages[k]).value
      {
        assert messages[1..][k - 1] == messages[k];
      }
    }
  }
}
