/**
 * The ITR thread table of the LISP data plane: one entry per interface on
 * which an ITR thread captures packets, each with the buffered channel
 * ("umblical") through which the thread receives ITRConfiguration messages.
 *
 * A channel is an identifier; `channels` records, per channel, every message
 * sent on it, in order. The crypto port kept by the fib package is the field
 * `cryptoPort`.
 */
module Itr {

  /** dptypes.ITRConfiguration. */
  datatype ItrConfiguration = ItrConfiguration(quit: bool, itrCryptoPort: int, itrCryptoPortValid: bool)

  /** The message that tells a thread to exit: Quit set, no valid port. */
  const QuitMessage: ItrConfiguration := ItrConfiguration(true, 0, false)

  /** The message that hands a thread the ITR crypto port. */
  function PortMessage(port: int): (m: ItrConfiguration)
    ensures !m.quit && m.itrCryptoPortValid && m.itrCryptoPort == port
  {
    ItrConfiguration(false, port, true)
  }

  /** The names of the interfaces in a configuration (duplicates collapse). */
  function Names(interfaces: seq<string>): set<string>
  {
    set i | 0 <= i < |interfaces| :: interfaces[i]
  }

  class ThreadTable {
    /** threadTable: interface name to the entry's channel. */
    var table: map<string, nat>
    /** Every message sent on each channel, oldest first. */
    var channels: map<nat, seq<ItrConfiguration>>
    /** The identifier the next channel made gets: channels are fresh. */
    var nextChannel: nat
    /** fib's ITR crypto port (PutItrCryptoPort / GetItrCryptoPort). */
    var cryptoPort: int

    /** Every entry has its own channel, and channel identifiers are never reused. */
    ghost predicate Valid()
      reads this
    {
      (forall n :: n in table ==> table[n] in channels && table[n] < nextChannel)
      && (forall c :: c in channels ==> c < nextChannel)
      && (forall n, m :: n in table && m in table && n != m ==> table[n] != table[m])
    }

    constructor ()
      ensures Valid() && table == map[] && channels == map[] && cryptoPort == 0
    {
      table, channels, nextChannel, cryptoPort := map[], map[], 0, 0;
    }

    /** InitThreadTable: a new, empty table; channels already made stay as they are. */
    method InitThreadTable()
      requires Valid()
      modifies this
      ensures Valid() && table == map[]
      ensures channels == old(channels) && nextChannel == old(nextChannel) && cryptoPort == old(cryptoPort)
    {
      table := map[];
    }

    /**
     * HandleItrCryptoPort: store the port, then send it to every thread in
     * the table (in map order, which does not matter here).
     */
    method HandleItrCryptoPort(port: int)
      requires Valid()
      modifies this
      ensures Valid() && cryptoPort == port
      ensures table == old(table) && nextChannel == old(nextChannel) && channels.Keys == old(channels).Keys
      ensures forall n :: n in table ==> channels[table[n]] == old(channels)[table[n]] + [PortMessage(port)]
      ensures forall c :: c in channels && c !in table.Values ==> channels[c] == old(channels)[c]
    {
      cryptoPort := port;
      var msg := PortMessage(port);
      var remaining := table.Keys;
      while remaining != {}
        invariant remaining <= table.Keys
        invariant Valid() && table == old(table) && nextChannel == old(nextChannel) && cryptoPort == port
        invariant SentTo(old(channels), channels, table, remaining, msg)
        decreases remaining
      {
        var name :| name in remaining;
        SentToStep(old(channels), channels, table, remaining, msg, name);
        SendTo(name, msg);
        remaining := remaining - {name};
      }
    }

    /** One step of HandleItrCryptoPort's loop: the message on one entry's channel. */
    method SendTo(name: string, msg: ItrConfiguration)
      requires Valid() && name in table
      modifies this
      ensures Valid() && table == old(table) && nextChannel == old(nextChannel) && cryptoPort == old(cryptoPort)
      ensures channels == old(channels)[table[name] := old(channels)[table[name]] + [msg]]
    {
      var ch := table[name];
      channels := channels[ch := channels[ch] + [msg]];
    }

    /**
     * ManageItrThreads: threads for interfaces no longer configured get a
     * quit message and leave the table; configured interfaces without a thread
     * get a new entry with a new channel, on which the current crypto port is
     * sent. Both loops visit the maps in an arbitrary order.
     */
    method ManageItrThreads(interfaces: seq<string>)
      requires Valid()
      modifies this
      ensures Valid() && cryptoPort == old(cryptoPort)
      ensures forall c :: c in old(channels) ==> c in channels
      ensures table.Keys == Names(interfaces)
      ensures forall n :: n in old(table) && n in table ==>
                table[n] == old(table)[n] && channels[table[n]] == old(channels)[table[n]]
      ensures forall n :: n in old(table) && n !in table ==>
                channels[old(table)[n]] == old(channels)[old(table)[n]] + [QuitMessage]
      ensures forall n :: n in table && n !in old(table) ==>
                old(nextChannel) <= table[n] && channels[table[n]] == [PortMessage(cryptoPort)]
      ensures forall c :: c in old(channels) && c !in old(table).Values ==> channels[c] == old(channels)[c]
      ensures old(table).Keys == Names(interfaces) ==>
                table == old(table) && channels == old(channels) && nextChannel == old(nextChannel)
    {
      var needed := NeededInterfaces(interfaces);
      KillStaleThreads(needed);
      CreateMissingThreads(needed);
    }

    /** The first loop of ManageItrThreads: send a quit message to, and drop, every entry not needed. */
    method KillStaleThreads(needed: set<string>)
      requires Valid()
      modifies this
      ensures Valid() && cryptoPort == old(cryptoPort) && nextChannel == old(nextChannel)
      ensures channels.Keys == old(channels).Keys
      ensures forall n :: n in table <==> n in old(table) && n in needed
      ensures forall n :: n in table ==> table[n] == old(table)[n]
      ensures forall n :: n in old(table) ==>
                channels[old(table)[n]] == if n in needed then old(channels)[old(table)[n]]
                                           else old(channels)[old(table)[n]] + [QuitMessage]
      ensures forall c :: c in old(channels) && c !in old(table).Values ==> channels[c] == old(channels)[c]
      ensures old(table).Keys <= needed ==> table == old(table) && channels == old(channels)
    {
      var remaining := table.Keys;
      while remaining != {}
        invariant remaining <= old(table).Keys
        invariant Retiring(old(table), old(channels), table, channels, remaining, needed)
        invariant nextChannel == old(nextChannel) && cryptoPort == old(cryptoPort)
        invariant Valid()
        decreases remaining
      {
        var name :| name in remaining;
        RetiringStep(old(table), old(channels), table, channels, remaining, needed, name);
        if name !in needed {
          Retire(name);
        }
        remaining := remaining - {name};
      }
      if old(table).Keys <= needed {
        assert table == old(table);
        forall c | c in channels
          ensures channels[c] == old(channels)[c]
        {
          if c in old(table).Values {
            var n :| n in old(table) && old(table)[n] == c;
          }
        }
      }
    }

    /** One step of the first loop: the quit message on the entry's channel, then delete(threadTable, name). */
    method Retire(name: string)
      requires Valid() && name in table
      modifies this
      ensures Valid() && cryptoPort == old(cryptoPort) && nextChannel == old(nextChannel)
      ensures table == old(table) - {name}
      ensures channels == old(channels)[old(table)[name] := old(channels)[old(table)[name]] + [QuitMessage]]
    {
      var ch := table[name];
      channels := channels[ch := channels[ch] + [QuitMessage]];
      table := table - {name};
    }

    /** The second loop of ManageItrThreads: a new entry, channel and port message for every needed name missing. */
    method CreateMissingThreads(needed: set<string>)
      requires Valid()
      modifies this
      ensures Valid() && cryptoPort == old(cryptoPort) && old(nextChannel) <= nextChannel
      ensures forall n :: n in table <==> n in old(table) || n in needed
      ensures forall n :: n in old(table) ==> table[n] == old(table)[n]
      ensures forall n :: n in table && n !in old(table) ==>
                old(nextChannel) <= table[n] && channels[table[n]] == [PortMessage(cryptoPort)]
      ensures forall c :: c in old(channels) ==> c in channels && channels[c] == old(channels)[c]
      ensures needed <= old(table).Keys ==> table == old(table) && channels == old(channels) && nextChannel == old(nextChannel)
    {
      var toCreate := needed;
      while toCreate != {}
        invariant Valid()
        invariant needed <= old(table).Keys ==>
                    table == old(table) && channels == old(channels) && nextChannel == old(nextChannel)
        invariant toCreate <= needed
        invariant Creating(old(table), old(channels), old(nextChannel), table, channels, toCreate, needed,
                           PortMessage(cryptoPort))
        invariant old(nextChannel) <= nextChannel && cryptoPort == old(cryptoPort)
        decreases toCreate
      {
        var name :| name in toCreate;
        if name !in table {
          CreatingStep(old(table), old(channels), old(nextChannel), table, channels, toCreate, needed,
                       PortMessage(cryptoPort), name, nextChannel);
          Spawn(name);
        }
        toCreate := toCreate - {name};
      }
    }

    /** One step of the second loop: a new channel, the thread's entry, and the port message on the channel. */
    method Spawn(name: string)
      requires Valid() && name !in table
      modifies this
      ensures Valid() && cryptoPort == old(cryptoPort) && nextChannel == old(nextChannel) + 1
      ensures table == old(table)[name := old(nextChannel)]
      ensures channels == old(channels)[old(nextChannel) := [PortMessage(cryptoPort)]]
    {
      var umblical := nextChannel;
      nextChannel := nextChannel + 1;
      // the thread is started here; it owns the new channel
      table := table[name := umblical];
      channels := channels[umblical := [PortMessage(cryptoPort)]];
    }
  }

  /**
   * While CreateMissingThreads visits the needed names: the entries kept are
   * unchanged, every visited name has an entry, a new entry has a new
   * channel holding just msg, and the channels that existed are untouched.
   */
  ghost predicate Creating(prevTable: map<string, nat>, prev: map<nat, seq<ItrConfiguration>>, prevNext: nat,
                           table: map<string, nat>, cur: map<nat, seq<ItrConfiguration>>,
                           pending: set<string>, needed: set<string>, msg: ItrConfiguration)
  {
    (forall n :: n in table <==> n in prevTable || (n in needed && n !in pending))
    && (forall n :: n in prevTable ==> table[n] == prevTable[n])
    && (forall n :: n in table && n !in prevTable ==> prevNext <= table[n] && table[n] in cur && cur[table[n]] == [msg])
    && (forall c :: c in prev ==> c in cur && cur[c] == prev[c])
  }

  lemma CreatingStep(prevTable: map<string, nat>, prev: map<nat, seq<ItrConfiguration>>, prevNext: nat,
                     table: map<string, nat>, cur: map<nat, seq<ItrConfiguration>>,
                     pending: set<string>, needed: set<string>, msg: ItrConfiguration, name: string, next: nat)
    requires Creating(prevTable, prev, prevNext, table, cur, pending, needed, msg)
    requires name in pending && pending <= needed && name !in table && prevNext <= next
    requires forall c :: c in prev ==> c < prevNext
    ensures Creating(prevTable, prev, prevNext, table[name := next], cur[next := [msg]], pending - {name}, needed, msg)
  {
    assert next !in prev;
  }

  /**
   * While msg is sent to every entry in turn: the channels of the entries
   * still `pending` are as they were, the others have msg appended, and
   * channels of no entry are as they were.
   */
  ghost predicate SentTo(prev: map<nat, seq<ItrConfiguration>>, cur: map<nat, seq<ItrConfiguration>>,
                         table: map<string, nat>, pending: set<string>, msg: ItrConfiguration)
  {
    cur.Keys == prev.Keys
    && (forall n :: n in table && table[n] in prev ==>
          cur[table[n]] == if n in pending then prev[table[n]] else prev[table[n]] + [msg])
    && (forall c :: c in prev && c !in table.Values ==> cur[c] == prev[c])
  }

  lemma SentToStep(prev: map<nat, seq<ItrConfiguration>>, cur: map<nat, seq<ItrConfiguration>>,
                   table: map<string, nat>, pending: set<string>, msg: ItrConfiguration, name: string)
    requires SentTo(prev, cur, table, pending, msg) && name in table && name in pending && table[name] in prev
    requires forall n, m :: n in table && m in table && n != m ==> table[n] != table[m]
    ensures SentTo(prev, cur[table[name] := cur[table[name]] + [msg]], table, pending - {name}, msg)
  {
    var ch := table[name];
    forall n | n in table && n != name
      ensures table[n] != ch
    {
    }
    assert ch in table.Values;
  }

  /**
   * While KillStaleThreads visits the entries: an entry has left the table
   * exactly when it was visited and is not needed, and then its channel has
   * the quit message appended; every other channel is as it was.
   */
  ghost predicate Retiring(prevTable: map<string, nat>, prev: map<nat, seq<ItrConfiguration>>,
                           table: map<string, nat>, cur: map<nat, seq<ItrConfiguration>>,
                           pending: set<string>, needed: set<string>)
  {
    (forall n :: n in table <==> n in prevTable && (n in pending || n in needed))
    && (forall n :: n in table ==> table[n] == prevTable[n])
    && cur.Keys == prev.Keys
    && (forall n :: n in prevTable && prevTable[n] in prev ==>
          cur[prevTable[n]] == if n in table then prev[prevTable[n]] else prev[prevTable[n]] + [QuitMessage])
    && (forall c :: c in prev && c !in prevTable.Values ==> cur[c] == prev[c])
  }

  lemma RetiringStep(prevTable: map<string, nat>, prev: map<nat, seq<ItrConfiguration>>,
                     table: map<string, nat>, cur: map<nat, seq<ItrConfiguration>>,
                     pending: set<string>, needed: set<string>, name: string)
    requires Retiring(prevTable, prev, table, cur, pending, needed) && name in pending && pending <= prevTable.Keys
    requires forall n :: n in prevTable ==> prevTable[n] in prev
    requires forall n, m :: n in prevTable && m in prevTable && n != m ==> prevTable[n] != prevTable[m]
    ensures name in needed ==> Retiring(prevTable, prev, table, cur, pending - {name}, needed)
    ensures name !in needed ==>
              name in table
              && Retiring(prevTable, prev, table - {name}, cur[table[name] := cur[table[name]] + [QuitMessage]],
                          pending - {name}, needed)
  {
    if name !in needed {
      var ch := prevTable[name];
      forall n | n in prevTable && n != name
        ensures prevTable[n] != ch
      {
      }
      assert ch in prevTable.Values;
    }
  }

  /** tmpMap of ManageItrThreads: the set of interface names, built by a loop over the configuration. */
  method NeededInterfaces(interfaces: seq<string>) returns (needed: set<string>)
    ensures needed == Names(interfaces)
    ensures forall i :: 0 <= i < |interfaces| ==> interfaces[i] in needed
    ensures forall n :: n in needed ==> exists i :: 0 <= i < |interfaces| && interfaces[i] == n
  {
    needed := {};
    for i := 0 to |interfaces|
      invariant needed == set j | 0 <= j < i :: interfaces[j]
    {
      needed := needed + {interfaces[i]};
    }
  }
}
