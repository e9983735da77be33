/** What the user can do with the chat window: pick a room of the list, say a line, and ask for rooms. */
module UserInput {
  import opened Collections
  import opened Messages
  import opened Rooms
  import opened ClientSpec
  import opened Selection
  import opened Commands

  /** What a command asks the server for its second word. */
  ghost predicate AsksFor(w: Window, tokens: seq<string>, queued: seq<Message>) {
    if |tokens| == 2 && Spells(tokens[0], "/create_room") && IsValidRoomName(tokens[1]) then
      queued == [RoomCreate(tokens[1])]
    else if |tokens| == 2 && Spells(tokens[0], "/destroy_room") && tokens[1] in Names(w.rooms) then
      queued == [RoomDestroy(tokens[1])]
    else
      queued == []
  }

  /** A line goes to the selected room, a command asks for its second word, and nothing else changes. */
  ghost predicate Queues(w: Window, input: string, w': Window) {
    && w.sent <= w'.sent && w' == w.(sent := w'.sent)
    && var queued := w'.sent[|w.sent|..];
       if input == "" then queued == []
       else if input[0] == '/' then AsksFor(w, Tokens(input, ' '), queued)
       else if w.display == [] then queued == []
       else w.index < |w.display| && queued == [ChatSend(w.display[w.index], input)]
  }

  lemma CommandAsksFor(w: Window, tokens: seq<string>)
    ensures var w' := Commanded(w, tokens);
            && w.sent <= w'.sent && w' == w.(sent := w'.sent) && AsksFor(w, tokens, w'.sent[|w.sent|..])
  {
    assert (w.sent + [])[|w.sent|..] == [] && w.sent + [] == w.sent;
    if |tokens| == 2 {
      LowerSpells(tokens[0], "/create_room");
      LowerSpells(tokens[0], "/destroy_room");
      NamedIs(w.rooms, tokens[1]);
      hide Lower, Spells, Names, Find, IsValidRoomName;
    }
  }

  /** What submitting a line queues, once the window agrees with itself. */
  lemma SubmitQueues(w: Window, input: string)
    requires Settled(w)
    ensures Queues(w, input, Act(w, Submit(input)))
  {
    if input != "" && input[0] == '/' {
      hide Settled, AsksFor, Commanded;
      CommandAsksFor(w, Tokens(input, ' '));
    } else {
      hide AsksFor, Commanded;
      NoEmptyNames(w.rooms);
    }
  }

  /** Commands as they are typed: the command, blanks, one more word, and maybe blanks. */
  lemma CommandQueues(w: Window, command: string, gap: string, word: string, rest: string)
    requires Settled(w) && ' ' !in word && word != "" && Blank(gap) && gap != "" && Blank(rest)
    ensures var queued := Act(w, Submit(command + gap + word + rest)).sent[|w.sent|..];
            && (Spells(command, "/create_room") ==> queued == if IsValidRoomName(word) then [RoomCreate(word)] else [])
            && (Spells(command, "/destroy_room") ==> queued == if word in Names(w.rooms) then [RoomDestroy(word)] else [])
  {
    if Spells(command, "/create_room") || Spells(command, "/destroy_room") {
      assert command != "" && command[0] == '/' && ' ' !in command;
      TwoWords(command, gap, word, rest);
      SubmitQueues(w, command + gap + word + rest);
    }
  }

  /** The room of the entry that is picked is selected, and joined unless it was. */
  lemma PickSelects(w: Window, i: nat, room: string)
    requires Settled(w) && i < |w.display|
    ensures var w' := Act(w, Pick(i));
            && Settled(w') && w'.index == i && w'.current == w.display[i]
            && w'.display == w.display && w'.history == w.history
            && (IsJoined(w', room) <==> IsJoined(w, room) || room == w.display[i])
            && w'.sent == w.sent + if IsJoined(w, w.display[i]) then []
                                   else [RoomJoin(w.display[i]), RoomHistory(w.display[i], 100, [])]
  {
    var w1 := w.(index := i, current := w.display[i]);
    ActSettles(w, Pick(i));
    JoinKeepsView(w1, w1.current);
    JoinMarks(w1, w1.current, room);
    NamedIs(w.rooms, w1.current);
    hide Settled, JoinIfNeeded, Find, Names, Clean;
  }

  /** A list of good names, none of them twice: the window's rooms are these, in the list's order, none joined. */
  lemma {:induction false} ListedInOrder(names: seq<string>, i: nat)
    requires Distinct(names) && i < |names| && forall k :: 0 <= k < |names| ==> IsValidRoomName(names[k])
    ensures |Created(names)| == |names| && Names(Created(names)) == names
    ensures Created(names)[i] == RoomState(names[i], false, false)
  {
    var n := |names| - 1;
    var earlier := names[..n];
    if n > 0 {
      ListedInOrder(earlier, if i < n then i else 0);
    }
    NamedIs(Created(earlier), names[n]);
    assert names == earlier + [names[n]];
    assert names[n] !in earlier;
  }
}
