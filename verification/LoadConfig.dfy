/** Loading a configuration into the host's and the client's tunnel maps. */
module LoadConfig {
  import opened Common
  import opened ConfigEntries
  import opened Config
  import Hex

  /** How the text of a secret is read. */
  type Decoder = string -> Option<seq<Byte>>

  datatype Tunnel = Tunnel(name: string, addr: Addr, protocol: Protocol, secret: seq<Byte>)

  datatype Key = Key(addr: Addr, protocol: Protocol)

  datatype State = State(hosts: map<seq<Byte>, Tunnel>, clients: map<Key, Tunnel>)

  datatype LoadResult = Loaded(state: State) | BadHex | BadLength | Duplicate(key: Key)

  function SecretText(e: Entry): string {
    if e.HostEntry? then e.privateSecret else e.secret
  }

  predicate SecretOk(e: Entry, dec: Decoder) {
    dec(SecretText(e)).Some? && |dec(SecretText(e)).value| == 32
  }

  function SecretOf(e: Entry, dec: Decoder): seq<Byte>
    requires SecretOk(e, dec)
  {
    dec(SecretText(e)).value
  }

  function TunnelOf(e: Entry, dec: Decoder): Tunnel
    requires SecretOk(e, dec)
  {
    Tunnel(e.name, e.local, e.protocol, SecretOf(e, dec))
  }

  function KeyOf(e: Entry): Key {
    Key(e.local, e.protocol)
  }

  predicate SecretsOk(s: seq<Entry>, dec: Decoder) {
    forall i :: 0 <= i < |s| ==> SecretOk(s[i], dec)
  }

  /** Exactly when a configuration loads. */
  predicate Loadable(c: Lists) {
    SecretsOk(c.hosts, Hex.Decode) && SecretsOk(c.clients, Hex.Decode) && DistinctKeys(c.clients)
  }

  /** The host map after inserting the entries in order. */
  function HostMap(s: seq<Entry>, dec: Decoder): map<seq<Byte>, Tunnel>
    requires SecretsOk(s, dec)
  {
    if s == [] then map[] else HostMap(s[..|s| - 1], dec)[SecretOf(s[|s| - 1], dec) := TunnelOf(s[|s| - 1], dec)]
  }

  /** The client map after inserting the entries in order. */
  function ClientMap(s: seq<Entry>, dec: Decoder): map<Key, Tunnel>
    requires SecretsOk(s, dec)
  {
    if s == [] then map[] else ClientMap(s[..|s| - 1], dec)[KeyOf(s[|s| - 1]) := TunnelOf(s[|s| - 1], dec)]
  }

  lemma {:induction false} HostMapKeys(s: seq<Entry>, k: seq<Byte>, dec: Decoder)
    requires SecretsOk(s, dec)
    ensures k in HostMap(s, dec) <==> exists i :: 0 <= i < |s| && SecretOf(s[i], dec) == k
  {
    if s != [] {
      HostMapKeys(s[..|s| - 1], k, dec);
    }
  }

  /** Of the entries with one private secret, the last wins. */
  lemma {:induction false} HostMapLastWins(s: seq<Entry>, i: nat, dec: Decoder)
    requires SecretsOk(s, dec) && i < |s| && forall j :: i < j < |s| ==> SecretOf(s[j], dec) != SecretOf(s[i], dec)
    ensures SecretOf(s[i], dec) in HostMap(s, dec) && HostMap(s, dec)[SecretOf(s[i], dec)] == TunnelOf(s[i], dec)
  {
    if i < |s| - 1 {
      HostMapLastWins(s[..|s| - 1], i, dec);
    }
  }

  lemma {:induction false} HostMapEntry(s: seq<Entry>, k: seq<Byte>, dec: Decoder) returns (i: nat)
    requires SecretsOk(s, dec) && k in HostMap(s, dec)
    ensures i < |s| && SecretOf(s[i], dec) == k && HostMap(s, dec)[k] == TunnelOf(s[i], dec)
  {
    i := |s| - 1;
    if SecretOf(s[i], dec) != k {
      i := HostMapEntry(s[..|s| - 1], k, dec);
    }
  }

  lemma {:induction false} ClientMapKeys(s: seq<Entry>, k: Key, dec: Decoder)
    requires SecretsOk(s, dec)
    ensures k in ClientMap(s, dec) <==> exists i :: 0 <= i < |s| && KeyOf(s[i]) == k
  {
    if s != [] {
      ClientMapKeys(s[..|s| - 1], k, dec);
    }
  }

  /** With distinct keys every entry keeps its own tunnel, and there are as many tunnels as entries. */
  lemma {:induction false} ClientMapOnePerEntry(s: seq<Entry>, i: nat, dec: Decoder)
    requires SecretsOk(s, dec) && DistinctKeys(s)
    ensures i < |s| ==> KeyOf(s[i]) in ClientMap(s, dec) && ClientMap(s, dec)[KeyOf(s[i])] == TunnelOf(s[i], dec)
    ensures |ClientMap(s, dec)| == |s|
  {
    if s != [] {
      var init, last := s[..|s| - 1], s[|s| - 1];
      ClientMapOnePerEntry(init, if i < |init| then i else 0, dec);
      ClientMapKeys(init, KeyOf(last), dec);
      assert KeyOf(last) !in ClientMap(init, dec) by {
        assert forall j :: 0 <= j < |init| ==> !SameKey(s[j], last);
      }
    }
  }

  /** The first entry that cannot be loaded, and the error it gives: a bad secret, or a key already taken. */
  predicate FirstFailure(s: seq<Entry>, i: nat, r: LoadResult, keyed: bool, dec: Decoder) {
    && i < |s| && SecretsOk(s[..i], dec) && (keyed ==> DistinctKeys(s[..i]))
    && match r
       case Loaded(_) => false
       case BadHex => dec(SecretText(s[i])).None?
       case BadLength => dec(SecretText(s[i])).Some? && |dec(SecretText(s[i])).value| != 32
       case Duplicate(key) => keyed && SecretOk(s[i], dec) && key == KeyOf(s[i]) && exists j :: 0 <= j < i && SameKey(s[j], s[i])
  }

  ghost predicate FailsWith(s: seq<Entry>, r: LoadResult, keyed: bool, dec: Decoder) {
    exists i :: FirstFailure(s, i, r, keyed, dec)
  }

  /** No longer part of the list can be loaded. */
  lemma FailureEnds(s: seq<Entry>, i: nat, j: nat, r: LoadResult, keyed: bool, dec: Decoder)
    requires FirstFailure(s, i, r, keyed, dec) && i < j <= |s|
    ensures !SecretsOk(s[..j], dec) || (keyed && !DistinctKeys(s[..j]))
  {
    assert s[..j][i] == s[i];
    if r.Duplicate? {
      var k :| 0 <= k < i && SameKey(s[k], s[i]);
      assert s[..j][k] == s[k];
    }
  }

  /** A list fails in one way only, so the error is determined by the list. */
  lemma {:induction false} FailureUnique(s: seq<Entry>, r: LoadResult, r': LoadResult, keyed: bool, dec: Decoder)
    requires FailsWith(s, r, keyed, dec) && FailsWith(s, r', keyed, dec)
    ensures r == r'
  {
    var i: nat :| FirstFailure(s, i, r, keyed, dec);
    var j: nat :| FirstFailure(s, j, r', keyed, dec);
    if i < j {
      FailureEnds(s, i, j, r, keyed, dec);
    } else if j < i {
      FailureEnds(s, j, i, r', keyed, dec);
    }
  }

  method LoadHosts(s: seq<Entry>, dec: Decoder) returns (r: LoadResult, m: map<seq<Byte>, Tunnel>)
    ensures r.Loaded? <==> SecretsOk(s, dec)
    ensures r.Loaded? ==> m == HostMap(s, dec)
    ensures !r.Loaded? ==> FailsWith(s, r, false, dec)
  {
    m := map[];
    for i := 0 to |s|
      invariant SecretsOk(s[..i], dec) && m == HostMap(s[..i], dec)
    {
      var secret := dec(SecretText(s[i]));
      if secret.None? {
        r := BadHex;
        assert FirstFailure(s, i, r, false, dec);
        return;
      }
      if |secret.value| != 32 {
        r := BadLength;
        assert FirstFailure(s, i, r, false, dec);
        return;
      }
      assert s[..i + 1][..i] == s[..i];
      m := m[secret.value := Tunnel(s[i].name, s[i].local, s[i].protocol, secret.value)];
    }
    assert s[..|s|] == s;
    return Loaded(State(map[], map[])), m;
  }

  lemma DistinctNext(s: seq<Entry>, i: nat, dec: Decoder)
    requires i < |s| && SecretsOk(s[..i], dec) && DistinctKeys(s[..i]) && KeyOf(s[i]) !in ClientMap(s[..i], dec)
    ensures DistinctKeys(s[..i + 1])
  {
    ClientMapKeys(s[..i], KeyOf(s[i]), dec);
    forall j | 0 <= j < i
      ensures !SameKey(s[j], s[i])
    {
      assert s[..i][j] == s[j];
    }
  }

  lemma DuplicateFound(s: seq<Entry>, i: nat, dec: Decoder)
    requires i < |s| && SecretsOk(s[..i], dec) && KeyOf(s[i]) in ClientMap(s[..i], dec)
    ensures exists j :: 0 <= j < i && SameKey(s[j], s[i])
  {
    ClientMapKeys(s[..i], KeyOf(s[i]), dec);
    var j :| 0 <= j < |s[..i]| && KeyOf(s[..i][j]) == KeyOf(s[i]);
    assert SameKey(s[j], s[i]);
  }

  method LoadClients(s: seq<Entry>, dec: Decoder) returns (r: LoadResult, m: map<Key, Tunnel>)
    ensures r.Loaded? <==> SecretsOk(s, dec) && DistinctKeys(s)
    ensures r.Loaded? ==> m == ClientMap(s, dec)
    ensures !r.Loaded? ==> FailsWith(s, r, true, dec)
  {
    m := map[];
    for i := 0 to |s|
      invariant SecretsOk(s[..i], dec) && DistinctKeys(s[..i]) && m == ClientMap(s[..i], dec)
    {
      var secret := dec(SecretText(s[i]));
      if secret.None? {
        assert FirstFailure(s, i, BadHex, true, dec);
        return BadHex, m;
      }
      if |secret.value| != 32 {
        assert FirstFailure(s, i, BadLength, true, dec);
        return BadLength, m;
      }
      var key := Key(s[i].local, s[i].protocol);
      if key in m {
        DuplicateFound(s, i, dec);
        assert FirstFailure(s, i, Duplicate(key), true, dec);
        return Duplicate(key), m;
      }
      DistinctNext(s, i, dec);
      assert s[..i + 1][..i] == s[..i];
      m := m[key := Tunnel(s[i].name, s[i].local, s[i].protocol, secret.value)];
    }
    assert s[..|s|] == s;
    return Loaded(State(map[], map[])), m;
  }

  /** Hosts first, then clients; the first entry that cannot be loaded ends it. */
  method CreateState(c: Lists) returns (r: LoadResult)
    ensures r.Loaded? <==> Loadable(c)
    ensures r.Loaded? ==> r.state == State(HostMap(c.hosts, Hex.Decode), ClientMap(c.clients, Hex.Decode))
    ensures !r.Loaded? ==> if SecretsOk(c.hosts, Hex.Decode) then FailsWith(c.clients, r, true, Hex.Decode)
                           else FailsWith(c.hosts, r, false, Hex.Decode)
  {
    var hosts, clients;
    r, hosts := LoadHosts(c.hosts, Hex.Decode);
    if r.Loaded? {
      r, clients := LoadClients(c.clients, Hex.Decode);
      if r.Loaded? {
        r := Loaded(State(hosts, clients));
      }
    }
  }

  /** What a command-made client list needs in order to load. */
  predicate LengthsOk(s: seq<Entry>) {
    forall i :: 0 <= i < |s| ==> |SecretText(s[i])| == 64
  }

  lemma LoadableIff(c: Lists)
    requires Config.Inv(c)
    ensures Loadable(c) <==> LengthsOk(c.clients)
  {
    forall i | 0 <= i < |c.clients|
      ensures SecretOk(c.clients[i], Hex.Decode) <==> |SecretText(c.clients[i])| == 64
    {
      Hex.EncodeInvertsDecode(c.clients[i].secret);
    }
    assert forall i :: 0 <= i < |c.hosts| ==> HostOk(c.hosts[i]) && SecretOk(c.hosts[i], Hex.Decode);
  }

  /**
   A configuration made by commands loads exactly if every client secret has 64 characters: adding
   a client checks that the secret is hexadecimal, but not its length.
   */
  lemma CommandsLoadIff(cmds: seq<Command>)
    requires forall i :: 0 <= i < |cmds| ==> Proper(cmds[i])
    ensures var c := DoAll(Lists([], []), cmds);
            Loadable(c) <==> forall i :: 0 <= i < |c.clients| ==> c.clients[i].ClientEntry? && |c.clients[i].secret| == 64
  {
    CommandsKeepInv(Lists([], []), cmds);
    LoadableIff(DoAll(Lists([], []), cmds));
  }

  lemma SortMembers(s: seq<Entry>, e: Entry)
    ensures e in Sort(s) <==> e in s
  {
    SortIsStable(s);
    assert e in multiset(Sort(s)) <==> e in multiset(s);
  }

  /**
   A host tunnel added by the command loads under the very bytes of its generated secret; if no other
   entry has that secret, the tunnel found there is the one added.
   */
  lemma {:induction false} AddedHostLoads(c: Lists, cmd: Command)
    requires cmd.AddHost? && |cmd.private| == 32 && !Taken(c.hosts, cmd.local, cmd.protocol)
    requires SecretsOk(c.hosts, Hex.Decode)
    ensures SecretsOk(Do(c, cmd).hosts, Hex.Decode) && cmd.private in HostMap(Do(c, cmd).hosts, Hex.Decode)
    ensures (forall i :: 0 <= i < |c.hosts| ==> SecretOf(c.hosts[i], Hex.Decode) != cmd.private) ==>
              HostMap(Do(c, cmd).hosts, Hex.Decode)[cmd.private] == Tunnel(cmd.name, cmd.local, cmd.protocol, cmd.private)
  {
    var e := HostEntry(cmd.name, cmd.local, cmd.protocol, Hex.Encode(cmd.private), Hex.Encode(cmd.public));
    Hex.DecodeInvertsEncode(cmd.private);
    var s := c.hosts + [e];
    var t := Sort(s);
    forall i | 0 <= i < |t|
      ensures SecretOk(t[i], Hex.Decode) && (t[i] == e || t[i] in c.hosts)
    {
      SortMembers(s, t[i]);
    }
    assert s[|c.hosts|] == e;
    SortMembers(s, e);
    HostMapKeys(t, cmd.private, Hex.Decode);
    var i := HostMapEntry(t, cmd.private, Hex.Decode);
  }

  /** Every member of a list with distinct keys is found under its key, wherever it stands. */
  lemma FoundUnderKey(s: seq<Entry>, x: Entry, dec: Decoder)
    requires SecretsOk(s, dec) && DistinctKeys(s) && x in s
    ensures SecretOk(x, dec) && KeyOf(x) in ClientMap(s, dec) && ClientMap(s, dec)[KeyOf(x)] == TunnelOf(x, dec)
  {
    var i :| 0 <= i < |s| && s[i] == x;
    ClientMapOnePerEntry(s, i, dec);
  }

  /** The map of a list depends on its members alone. */
  lemma MapOfMembers(s: seq<Entry>, t: seq<Entry>, e: Entry, dec: Decoder)
    requires SecretsOk(s, dec) && SecretOk(e, dec) && DistinctKeys(s) && DistinctKeys(t)
    requires forall x :: x in t <==> x in s || x == e
    ensures SecretsOk(t, dec)
    ensures var m, m' := ClientMap(s, dec), ClientMap(t, dec);
            m'.Keys == m.Keys + {KeyOf(e)} && m'[KeyOf(e)] == TunnelOf(e, dec) && forall k :: k in m ==> m'[k] == m[k]
  {
    assert forall i :: 0 <= i < |t| ==> t[i] in t;
    var m, m' := ClientMap(s, dec), ClientMap(t, dec);
    FoundUnderKey(t, e, dec);
    forall k | k in m
      ensures k in m' && m'[k] == m[k]
    {
      ClientMapKeys(s, k, dec);
      var i :| 0 <= i < |s| && KeyOf(s[i]) == k;
      FoundUnderKey(s, s[i], dec);
      FoundUnderKey(t, s[i], dec);
    }
    forall k | k in m'
      ensures k in m || k == KeyOf(e)
    {
      ClientMapKeys(t, k, dec);
      ClientMapKeys(s, k, dec);
      var i :| 0 <= i < |t| && KeyOf(t[i]) == k;
      assert t[i] in t;
    }
  }

  /**
   A client tunnel added by the command, the secret being 64 hexadecimal digits, loads under its address
   and protocol with its name and the bytes that the digits stand for; every other client entry still
   loads under its own key as it would have.
   */
  lemma {:induction false} AddedClientIsFound(c: Lists, cmd: Command, bytes: seq<Byte>)
    requires Config.Inv(c) && SecretsOk(c.clients, Hex.Decode)
    requires cmd.AddClient? && Hex.Decode(cmd.text) == Some(bytes) && |bytes| == 32
    requires !Taken(c.clients, cmd.local, cmd.protocol)
    ensures SecretsOk(Do(c, cmd).clients, Hex.Decode)
    ensures var m := ClientMap(Do(c, cmd).clients, Hex.Decode);
            && m.Keys == ClientMap(c.clients, Hex.Decode).Keys + {Key(cmd.local, cmd.protocol)}
            && m[Key(cmd.local, cmd.protocol)] == Tunnel(cmd.name, cmd.local, cmd.protocol, bytes)
            && forall k :: k in ClientMap(c.clients, Hex.Decode) ==> m[k] == ClientMap(c.clients, Hex.Decode)[k]
  {
    var e := ClientEntry(cmd.name, cmd.local, cmd.protocol, Hex.Normalise(cmd.text).value);
    Hex.NormaliseKeepsSecret(cmd.text);
    CommandKeepsInv(c, cmd);
    var s, t := c.clients, Do(c, cmd).clients;
    forall x
      ensures x in t <==> x in s || x == e
    {
      SortMembers(s + [e], x);
    }
    MapOfMembers(s, t, e, Hex.Decode);
  }

  // ---- secrets of the wrong length --------------------------------------------------------

  lemma AcceptedSecret(cmd: Command)
    requires cmd.AddClient? && Hex.WellFormed(cmd.text)
    ensures Hex.Normalise(cmd.text).Some? && |Hex.Normalise(cmd.text).value| == |cmd.text|
  {
    Hex.DecodesIffWellFormed(cmd.text);
    Hex.NormaliseKeepsSecret(cmd.text);
  }

  /** The clients after adding one whose key is free: the old ones and the new one. */
  lemma AddedClient(c: Lists, cmd: Command, e: Entry)
    requires cmd.AddClient? && Hex.Normalise(cmd.text).Some? && !Taken(c.clients, cmd.local, cmd.protocol)
    ensures e in Do(c, cmd).clients <==> e in c.clients || e == NewClient(cmd)
  {
    SortMembers(c.clients + [NewClient(cmd)], e);
  }

  lemma SameLengths(s: seq<Entry>, t: seq<Entry>, e: Entry)
    requires e !in s && forall x :: x in t <==> x in s || x == e
    ensures t != s && (LengthsOk(t) <==> LengthsOk(s) && |SecretText(e)| == 64)
  {
    assert e in t;
    assert forall i :: 0 <= i < |t| ==> t[i] in t;
    assert forall i :: 0 <= i < |s| ==> s[i] in s && s[i] in t;
  }

  /** The entry that an accepted command adds. */
  function NewClient(cmd: Command): Entry
    requires cmd.AddClient? && Hex.Normalise(cmd.text).Some?
  {
    ClientEntry(cmd.name, cmd.local, cmd.protocol, Hex.Normalise(cmd.text).value)
  }

  lemma {:induction false} AddedClientLoads(c: Lists, cmd: Command)
    requires Config.Inv(c) && cmd.AddClient? && Hex.WellFormed(cmd.text) && !Taken(c.clients, cmd.local, cmd.protocol)
    ensures Do(c, cmd).clients != c.clients && (Loadable(Do(c, cmd)) <==> Loadable(c) && |cmd.text| == 64)
  {
    var c' := Do(c, cmd);
    AcceptedSecret(cmd);
    CommandKeepsInv(c, cmd);
    LoadableIff(c);
    LoadableIff(c');
    forall e
      ensures e in c'.clients <==> e in c.clients || e == NewClient(cmd)
    {
      AddedClient(c, cmd, e);
    }
    SameLengths(c.clients, c'.clients, NewClient(cmd));
  }

  /**
   Whatever commands made the configuration: after adding a client with a free key and a hexadecimal
   secret, which the command always accepts, it loads exactly if it did before and the secret has 64
   characters.
   */
  lemma {:induction false} WrongLengthBreaksLoading(cmds: seq<Command>, cmd: Command)
    requires forall i :: 0 <= i < |cmds| ==> Proper(cmds[i])
    requires cmd.AddClient? && Hex.WellFormed(cmd.text)
    requires !Taken(DoAll(Lists([], []), cmds).clients, cmd.local, cmd.protocol)
    ensures var c := DoAll(Lists([], []), cmds);
            Do(c, cmd).clients != c.clients && (Loadable(Do(c, cmd)) <==> Loadable(c) && |cmd.text| == 64)
  {
    CommandsKeepInv(Lists([], []), cmds);
    AddedClientLoads(DoAll(Lists([], []), cmds), cmd);
  }

  /** An entry goes only when a removal names it. */
  lemma EntryStays(c: Lists, cmd: Command, e: Entry)
    requires e in c.clients && cmd != Remove(e.name)
    ensures e in Do(c, cmd).clients
  {
    match cmd
    case AddHost(_, _, _, _, _) =>
    case AddClient(text, local, protocol, name) =>
      if Hex.Normalise(text).Some? && !Taken(c.clients, local, protocol) {
        SortMembers(c.clients + [ClientEntry(name, local, protocol, Hex.Normalise(text).value)], e);
      }
    case Remove(name) =>
      var p := Position(c.clients, name);
      if p.Some? {
        var i :| 0 <= i < |c.clients| && c.clients[i] == e;
        assert Without(c.clients, p.value)[if i < p.value then i else i - 1] == e;
      }
  }

  lemma {:induction false} EntryStaysAll(c: Lists, cmds: seq<Command>, e: Entry)
    requires e in c.clients && forall i :: 0 <= i < |cmds| ==> cmds[i] != Remove(e.name)
    ensures e in DoAll(c, cmds).clients
    decreases |cmds|
  {
    if cmds != [] {
      EntryStays(c, cmds[0], e);
      EntryStaysAll(Do(c, cmds[0]), cmds[1..], e);
    }
  }

  lemma {:induction false} BrokenFrom(c: Lists, e: Entry, cmds: seq<Command>)
    requires Config.Inv(c) && e in c.clients && |SecretText(e)| != 64
    requires forall i :: 0 <= i < |cmds| ==> Proper(cmds[i]) && cmds[i] != Remove(e.name)
    ensures !Loadable(DoAll(c, cmds))
  {
    CommandsKeepInv(c, cmds);
    EntryStaysAll(c, cmds, e);
    LoadableIff(DoAll(c, cmds));
  }

  /**
   Once a client with a secret of another length was added, every later configuration fails to load
   until some command removes an entry of that name.
   */
  lemma {:induction false} BrokenUntilRemoved(cmds: seq<Command>, cmd: Command, more: seq<Command>)
    requires forall i :: 0 <= i < |cmds| ==> Proper(cmds[i])
    requires cmd.AddClient? && Hex.WellFormed(cmd.text) && |cmd.text| != 64
    requires forall i :: 0 <= i < |more| ==> Proper(more[i]) && more[i] != Remove(cmd.name)
    requires !Taken(DoAll(Lists([], []), cmds).clients, cmd.local, cmd.protocol)
    ensures !Loadable(DoAll(Do(DoAll(Lists([], []), cmds), cmd), more))
  {
    CommandsKeepInv(Lists([], []), cmds);
    var c := DoAll(Lists([], []), cmds);
    AcceptedSecret(cmd);
    AddedClient(c, cmd, NewClient(cmd));
    CommandKeepsInv(c, cmd);
    BrokenFrom(Do(c, cmd), NewClient(cmd), more);
  }

  /** For instance a secret of two characters, as the first command. */
  lemma ShortSecretBreaksLoading(local: Addr, protocol: Protocol, name: string)
    ensures !Loadable(Do(Lists([], []), AddClient("ab", local, protocol, name)))
  {
    assert Hex.WellFormed("ab");
    assert DoAll(Lists([], []), []) == Lists([], []);
    WrongLengthBreaksLoading([], AddClient("ab", local, protocol, name));
  }
}
