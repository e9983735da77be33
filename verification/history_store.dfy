/**
 A history per room, as both the server (src/server/workers/server-worker.cpp) and the chat window
 (src/client/client-ui/chatwindow.cpp) keep them: a map from names to ring buffers.
 */
module HistoryStores {
  import opened Collections
  import opened Messages
  import opened RingBuffers

  /** A buffer of the size both sides use, with these items in it. */
  ghost predicate Holds<T>(buffer: RingBuffer<T>, items: seq<T>)
    reads buffer, buffer.data
  {
    buffer.Valid() && buffer.data.Length == CHAT_ROOM_HISTORY_SIZE && buffer.Contents() == items
  }

  method NewBuffer<T>() returns (buffer: RingBuffer<T>)
    ensures Holds(buffer, []) && fresh(buffer) && fresh(buffer.data)
  {
    buffer := new RingBuffer<T>(CHAT_ROOM_HISTORY_SIZE);
  }

  method InsertInto<T>(buffer: RingBuffer<T>, item: T, ghost items: seq<T>)
    requires Holds(buffer, items)
    modifies buffer, buffer.data
    ensures Holds(buffer, Last(items + [item], HISTORY_KEPT))
  {
    buffer.Insert(item);
  }

  method ReadFrom<T>(buffer: RingBuffer<T>, ghost items: seq<T>) returns (read: seq<T>)
    requires Holds(buffer, items)
    ensures read == items
  {
    read := buffer.Forward();
  }

  class HistoryStore<T> {
    var buffers: map<string, RingBuffer<T>>
    /** What the buffers hold, and the objects they are made of. */
    ghost var contents: map<string, seq<T>>
    ghost var repr: set<object>

    ghost predicate Valid()
      reads this, repr
    {
      && this !in repr
      && buffers.Keys == contents.Keys
      && (forall room :: room in buffers ==>
            buffers[room] in repr && buffers[room].data in repr && Holds(buffers[room], contents[room]))
      && (forall a, b :: a in buffers && b in buffers && a != b ==>
            buffers[a] != buffers[b] && buffers[a].data != buffers[b].data)
    }

    constructor ()
      ensures Valid() && contents == map[] && fresh(repr)
    {
      buffers, contents, repr := map[], map[], {};
    }

    method Use(room: string, buffer: RingBuffer<T>)
      requires Valid() && Holds(buffer, [])
      requires buffer !in repr && buffer.data !in repr && this != (buffer as object) && this != (buffer.data as object)
      modifies this
      ensures Valid() && contents == old(contents)[room := []] && repr == old(repr) + {buffer, buffer.data}
    {
      hide Holds;
      buffers, contents, repr := buffers[room := buffer], contents[room := []], repr + {buffer, buffer.data};
    }

    /** An empty history for the room, in place of what it had. */
    method Renew(room: string)
      requires Valid()
      modifies this
      ensures Valid() && contents == old(contents)[room := []] && fresh(repr - old(repr))
    {
      hide Holds;
      var buffer := NewBuffer<T>();
      Use(room, buffer);
    }

    method InsertExisting(room: string, item: T)
      requires Valid() && room in contents
      modifies this`contents, repr
      ensures Valid() && repr == old(repr)
      ensures contents == old(contents)[room := Last(old(contents)[room] + [item], HISTORY_KEPT)]
    {
      hide Holds, Last;
      InsertInto(buffers[room], item, contents[room]);
      contents := contents[room := Last(contents[room] + [item], HISTORY_KEPT)];
    }

    /** `insert_event_into_room_history`, `insert_chat_history_event` */
    method Insert(room: string, item: T)
      requires Valid()
      modifies this, repr
      ensures Valid() && fresh(repr - old(repr))
      ensures contents == old(contents)[room := Last((if room in old(contents) then old(contents)[room] else []) + [item],
                                                     HISTORY_KEPT)]
    {
      KeysAgree();
      hide HistoryStore.Valid, Last;
      ghost var before := contents;
      if room !in buffers {
        Renew(room);
        ghost var first := Last([] + [item], HISTORY_KEPT);
        assert before[room := []][room := first] == before[room := first];
      }
      InsertExisting(room, item);
    }

    lemma KeysAgree()
      requires Valid()
      ensures buffers.Keys == contents.Keys
    {
    }

    /** `rewrite_chat_history` */
    method Rewrite(room: string, items: seq<T>)
      requires Valid()
      modifies this, repr
      ensures Valid() && contents == old(contents)[room := Last(items, HISTORY_KEPT)]
      ensures fresh(repr - old(repr))
    {
      hide HistoryStore.Valid;
      Renew(room);
      for i := 0 to |items|
        invariant Valid() && contents == old(contents)[room := Last(items[..i], HISTORY_KEPT)]
        invariant fresh(repr - old(repr))
      {
        LastOfAppend(items[..i], [items[i]], HISTORY_KEPT);
        assert items[..i + 1] == items[..i] + [items[i]];
        InsertExisting(room, items[i]);
      }
      assert items[..|items|] == items;
    }

    /** `std::erase_if`: only histories of the given rooms are kept. */
    method Keep(rooms: seq<string>)
      requires Valid()
      modifies this
      ensures Valid() && repr == old(repr)
      ensures contents == map room | room in old(contents) && room in rooms :: old(contents)[room]
    {
      hide Holds;
      buffers := map room | room in buffers && room in rooms :: buffers[room];
      contents := map room | room in contents && room in rooms :: contents[room];
    }

    method Erase(room: string)
      requires Valid()
      modifies this
      ensures Valid() && repr == old(repr) && contents == old(contents) - {room}
    {
      hide Holds;
      buffers, contents := buffers - {room}, contents - {room};
    }

    /** Everything retained for a room, oldest first. */
    method Read(room: string) returns (items: seq<T>)
      requires Valid()
      ensures items == if room in contents then contents[room] else []
    {
      if room in buffers {
        items := ReadFrom(buffers[room], contents[room]);
      } else {
        items := [];
      }
    }
  }
}
