/** The configuration: the commands that change it, and loading it into tunnel maps. */
module Config {
  import opened Common
  import opened ConfigEntries
  import Hex

  datatype Lists = Lists(hosts: seq<Entry>, clients: seq<Entry>)

  datatype Command =
    | AddHost(local: Addr, protocol: Protocol, name: string, private: seq<Byte>, public: seq<Byte>)
    | AddClient(text: string, local: Addr, protocol: Protocol, name: string)
    | Remove(name: string)

  predicate Taken(s: seq<Entry>, local: Addr, protocol: Protocol) {
    exists i :: 0 <= i < |s| && s[i].local == local && s[i].protocol == protocol
  }

  /** The first entry of a name. */
  function Position(s: seq<Entry>, name: string): (p: Option<nat>)
    ensures p.Some? ==> p.value < |s| && s[p.value].name == name && forall j :: 0 <= j < p.value ==> s[j].name != name
    ensures p.None? ==> forall j :: 0 <= j < |s| ==> s[j].name != name
  {
    if s == [] then None
    else if s[0].name == name then Some(0)
    else
      var p := Position(s[1..], name);
      assert forall j :: 1 <= j < |s| ==> s[j] == s[1..][j - 1];
      if p.None? then None else Some(p.value + 1)
  }

  function Without(s: seq<Entry>, p: nat): seq<Entry>
    requires p < |s|
  {
    s[..p] + s[p + 1..]
  }

  /** What a command makes of the lists; a refused command leaves them as they are. */
  function Do(c: Lists, cmd: Command): Lists {
    match cmd
    case AddHost(local, protocol, name, private, public) =>
      if Taken(c.hosts, local, protocol) then c
      else c.(hosts := Sort(c.hosts + [HostEntry(name, local, protocol, Hex.Encode(private), Hex.Encode(public))]))
    case AddClient(text, local, protocol, name) =>
      var secret := Hex.Normalise(text);
      if secret.None? || Taken(c.clients, local, protocol) then c
      else c.(clients := Sort(c.clients + [ClientEntry(name, local, protocol, secret.value)]))
    case Remove(name) =>
      var h, k := Position(c.hosts, name), Position(c.clients, name);
      if h.Some? then c.(hosts := Without(c.hosts, h.value))
      else if k.Some? then c.(clients := Without(c.clients, k.value))
      else c
  }

  // ---- what the commands keep -------------------------------------------------------------

  /** Secrets are the hexadecimal text of some bytes; a host's private secret has 32 of them. */
  predicate HostOk(e: Entry) {
    e.HostEntry? && Hex.Decode(e.privateSecret).Some? && |Hex.Decode(e.privateSecret).value| == 32
  }

  predicate ClientOk(e: Entry) {
    e.ClientEntry? && Hex.Decode(e.secret).Some? && e.secret == Hex.Encode(Hex.Decode(e.secret).value)
  }

  predicate Ordered(s: seq<Entry>) {
    Sorted(s) && DistinctKeys(s)
  }

  predicate Inv(c: Lists) {
    && Ordered(c.hosts) && Ordered(c.clients)
    && (forall i :: 0 <= i < |c.hosts| ==> HostOk(c.hosts[i]))
    && (forall i :: 0 <= i < |c.clients| ==> ClientOk(c.clients[i]))
  }

  lemma {:induction false} InsertElements(s: seq<Entry>, e: Entry, i: nat)
    requires i < |InsertAfter(s, e)|
    ensures InsertAfter(s, e)[i] == e || InsertAfter(s, e)[i] in s
  {
    InsertMembers(s, e);
    assert InsertAfter(s, e)[i] in multiset(InsertAfter(s, e));
  }

  lemma {:induction false} InsertDistinct(s: seq<Entry>, e: Entry)
    requires DistinctKeys(s) && !Taken(s, e.local, e.protocol)
    ensures DistinctKeys(InsertAfter(s, e))
  {
    if s != [] && !Leq(s[|s| - 1].name, e.name) {
      var init, last := s[..|s| - 1], s[|s| - 1];
      InsertDistinct(init, e);
      var t := InsertAfter(init, e);
      forall i | 0 <= i < |t|
        ensures !SameKey(t[i], last)
      {
        InsertElements(init, e, i);
      }
    }
  }

  lemma InsertOrdered(s: seq<Entry>, e: Entry)
    requires Ordered(s) && !Taken(s, e.local, e.protocol)
    ensures Ordered(InsertAfter(s, e))
  {
    InsertSorted(s, e);
    InsertDistinct(s, e);
  }

  lemma WithoutOrdered(s: seq<Entry>, p: nat)
    requires Ordered(s) && p < |s|
    ensures Ordered(Without(s, p))
  {
    var t := Without(s, p);
    assert forall i :: 0 <= i < |t| ==> t[i] == s[if i < p then i else i + 1];
  }

  lemma AddHostKeeps(c: Lists, cmd: Command)
    requires Inv(c) && cmd.AddHost? && |cmd.private| == 32
    ensures Inv(Do(c, cmd))
  {
    if !Taken(c.hosts, cmd.local, cmd.protocol) {
      var e := HostEntry(cmd.name, cmd.local, cmd.protocol, Hex.Encode(cmd.private), Hex.Encode(cmd.public));
      Hex.DecodeInvertsEncode(cmd.private);
      SortPushed(c.hosts, e);
      InsertOrdered(c.hosts, e);
      forall i | 0 <= i < |InsertAfter(c.hosts, e)|
        ensures HostOk(InsertAfter(c.hosts, e)[i])
      {
        InsertElements(c.hosts, e, i);
      }
    }
  }

  lemma AddClientKeeps(c: Lists, cmd: Command)
    requires Inv(c) && cmd.AddClient?
    ensures Inv(Do(c, cmd))
  {
    var secret := Hex.Normalise(cmd.text);
    if secret.Some? && !Taken(c.clients, cmd.local, cmd.protocol) {
      var e := ClientEntry(cmd.name, cmd.local, cmd.protocol, secret.value);
      Hex.NormaliseKeepsSecret(cmd.text);
      SortPushed(c.clients, e);
      InsertOrdered(c.clients, e);
      forall i | 0 <= i < |InsertAfter(c.clients, e)|
        ensures ClientOk(InsertAfter(c.clients, e)[i])
      {
        InsertElements(c.clients, e, i);
      }
    }
  }

  lemma RemoveKeeps(c: Lists, name: string)
    requires Inv(c)
    ensures Inv(Do(c, Remove(name)))
  {
    var h, k := Position(c.hosts, name), Position(c.clients, name);
    if h.Some? {
      WithoutOrdered(c.hosts, h.value);
    } else if k.Some? {
      WithoutOrdered(c.clients, k.value);
    }
  }

  /** Generated secrets have 32 bytes. */
  predicate Proper(cmd: Command) {
    cmd.AddHost? ==> |cmd.private| == 32
  }

  lemma CommandKeepsInv(c: Lists, cmd: Command)
    requires Inv(c) && Proper(cmd)
    ensures Inv(Do(c, cmd))
  {
    match cmd
    case AddHost(_, _, _, _, _) => AddHostKeeps(c, cmd);
    case AddClient(_, _, _, _) => AddClientKeeps(c, cmd);
    case Remove(name) => RemoveKeeps(c, name);
  }

  function DoAll(c: Lists, cmds: seq<Command>): Lists
    decreases |cmds|
  {
    if cmds == [] then c else DoAll(Do(c, cmds[0]), cmds[1..])
  }

  /** Any sequence of commands, from the empty configuration on. */
  lemma {:induction false} CommandsKeepInv(c: Lists, cmds: seq<Command>)
    requires Inv(c) && forall i :: 0 <= i < |cmds| ==> Proper(cmds[i])
    ensures Inv(DoAll(c, cmds))
    decreases |cmds|
  {
    if cmds != [] {
      CommandKeepsInv(c, cmds[0]);
      CommandsKeepInv(Do(c, cmds[0]), cmds[1..]);
    }
  }

  // ---- the commands in place --------------------------------------------------------------

  datatype AddResult = Added | AlreadyExists | InvalidSecret

  datatype RemoveResult = RemovedHost | RemovedClient | NotFound

  /** `t` holds what `s` holds, and one entry more. */
  ghost predicate HasMore(s: seq<Entry>, t: seq<Entry>, e: Entry) {
    multiset(t) == multiset(s) + multiset{e}
  }

  /** `t` is `s` without its first entry of that name. */
  ghost predicate LeavesOut(s: seq<Entry>, t: seq<Entry>, name: string) {
    exists p :: 0 <= p < |s| && s[p].name == name && t == s[..p] + s[p + 1..] && forall j :: 0 <= j < p ==> s[j].name != name
  }

  method FindName(s: seq<Entry>, name: string) returns (p: Option<nat>)
    ensures p == Position(s, name)
  {
    var i := 0;
    while i < |s|
      invariant 0 <= i <= |s| && forall j :: 0 <= j < i ==> s[j].name != name
    {
      if s[i].name == name {
        return Some(i);
      }
      i := i + 1;
    }
    return None;
  }

  class LanTunConfig {
    var hosts: seq<Entry>
    var clients: seq<Entry>

    function View(): Lists
      reads this
    {
      Lists(hosts, clients)
    }

    constructor ()
      ensures View() == Lists([], [])
    {
      hosts, clients := [], [];
    }

    /** Check, push, sort. */
    method AddHostTunnel(local: Addr, protocol: Protocol, name: string, private: seq<Byte>, public: seq<Byte>)
      returns (r: AddResult)
      modifies this
      ensures View() == Do(old(View()), AddHost(local, protocol, name, private, public))
      ensures r == if old(exists i :: 0 <= i < |hosts| && hosts[i].local == local && hosts[i].protocol == protocol)
                   then AlreadyExists else Added
      ensures clients == old(clients) && (r != Added ==> hosts == old(hosts))
      ensures r == Added ==> Sorted(hosts) && HasMore(old(hosts), hosts,
        HostEntry(name, local, protocol, Hex.Encode(private), Hex.Encode(public)))
    {
      var entry := HostEntry(name, local, protocol, Hex.Encode(private), Hex.Encode(public));
      if Taken(hosts, local, protocol) {
        return AlreadyExists;
      }
      hosts := hosts + [entry];
      SortIsStable(hosts);
      hosts := SortByName(hosts);
      return Added;
    }

    method AddClientTunnel(text: string, local: Addr, protocol: Protocol, name: string) returns (r: AddResult)
      modifies this
      ensures View() == Do(old(View()), AddClient(text, local, protocol, name))
      ensures r == if !Hex.WellFormed(text) then InvalidSecret
                   else if old(exists i :: 0 <= i < |clients| && clients[i].local == local && clients[i].protocol == protocol)
                   then AlreadyExists else Added
      ensures hosts == old(hosts) && (r != Added ==> clients == old(clients))
      ensures r == Added ==> Sorted(clients) && HasMore(old(clients), clients,
        ClientEntry(name, local, protocol, Hex.ToLower(text)))
    {
      Hex.DecodesIffWellFormed(text);
      var secret := Hex.Decode(text);
      if secret.None? {
        return InvalidSecret;
      }
      var entry := ClientEntry(name, local, protocol, Hex.Encode(secret.value));
      if Taken(clients, local, protocol) {
        return AlreadyExists;
      }
      Hex.EncodeInvertsDecode(text);
      clients := clients + [entry];
      SortIsStable(clients);
      clients := SortByName(clients);
      return Added;
    }

    /** The first host entry of that name, else the first client entry. */
    method RemoveTunnel(name: string) returns (r: RemoveResult)
      modifies this
      ensures View() == Do(old(View()), Remove(name))
      ensures r == NotFound <==> View() == old(View())
      ensures r == if old(exists i :: 0 <= i < |hosts| && hosts[i].name == name) then RemovedHost
                   else if old(exists i :: 0 <= i < |clients| && clients[i].name == name) then RemovedClient else NotFound
      ensures r == RemovedHost ==> clients == old(clients) && LeavesOut(old(hosts), hosts, name)
      ensures r == RemovedClient ==> hosts == old(hosts) && LeavesOut(old(clients), clients, name)
    {
      var p := FindName(hosts, name);
      if p.Some? {
        hosts := hosts[..p.value] + hosts[p.value + 1..];
        assert |hosts| == old(|hosts|) - 1;
        return RemovedHost;
      }
      p := FindName(clients, name);
      if p.Some? {
        clients := clients[..p.value] + clients[p.value + 1..];
        assert |clients| == old(|clients|) - 1;
        return RemovedClient;
      }
      return NotFound;
    }
  }
}
