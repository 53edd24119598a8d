/** `dns_query_t` as the C code updates it; every method is proved against its function in `Cares`. */
module CaresAdapter {
  import opened Basics
  import Model
  import Cares
  import Resolver

  class DnsQuery {
    var channel: bool
    var fds: Option<seq<int>>
    var dnsTimer: Cares.Timer
    var destroyTimer: Cares.Timer
    var conns: multiset<int>
    var pending: bool
    var completions: nat
    var destroyed: nat

    ghost function View(): Cares.Query
      reads this
    {
      Cares.Query(channel, fds, dnsTimer, destroyTimer, conns, pending, completions, destroyed)
    }

    /** `dns_query_ctor`, followed by the call of `ares_getaddrinfo`. */
    constructor Open()
      ensures View() == Cares.Opened()
    {
      channel, fds, dnsTimer, destroyTimer := true, None, Cares.NoTimer, Cares.Stopped;
      conns, pending, completions, destroyed := multiset{}, true, 0, 0;
    }

    /** `list_get`: the index of the first entry with this value, or -1. */
    method ListGet(fd: int) returns (k: int)
      ensures k >= 0 ==> fds.Some? && k < |fds.value| && Cares.ListGet(fds.value, fd) == Some(k as nat)
      ensures k < 0 <==> fd !in Cares.List(View())
    {
      k := -1;
      if fds.Some? {
        var i := 0;
        while i < |fds.value|
          invariant 0 <= i <= |fds.value| && fd !in fds.value[..i]
        {
          if fds.value[i] == fd {
            k := i;
            FoundAt(fds.value, fd, i);
            return;
          }
          i := i + 1;
        }
      }
    }

    /** `dslite_ares_start_timer` */
    method StartDnsTimer()
      modifies `dnsTimer
      ensures dnsTimer == Cares.Running
    {
      if dnsTimer == Cares.NoTimer {
        dnsTimer := Cares.Stopped;
      }
      dnsTimer := Cares.Start(dnsTimer);
    }

    /** `dslite_ares_sock_cb` for a socket that is in use. */
    method SocketOpened(fd: int)
      modifies `fds, `conns, `dnsTimer
      ensures View() == Cares.SockState(old(View()), fd, 1, 0)
    {
      hide Cares.ListGet, Cares.Without;
      if fds.None? {
        fds := Some([]);
      }
      var k := ListGet(fd);
      if k < 0 {
        fds := Some(fds.value + [fd]);
        conns := conns + multiset{fd};
        StartDnsTimer();
      }
    }

    /** `dslite_ares_sock_cb` for a socket that is no longer in use. */
    method SocketClosed(fd: int)
      modifies `fds, `conns, `destroyTimer
      ensures View() == Cares.SockState(old(View()), fd, 0, 0)
    {
      hide Cares.ListGet;
      var k := ListGet(fd);
      if k >= 0 {
        conns := conns - multiset{fd};
        fds := Some(fds.value[..k] + fds.value[k + 1..]);
        assert fds.value == Cares.Without(old(fds).value, fd);
      }
      if fds.None? || fds.value == [] {
        destroyTimer := Cares.Start(destroyTimer);
      }
    }

    /** `dslite_ares_sock_cb`. */
    method SockState(fd: int, readable: int, writable: int)
      modifies this
      ensures View() == Cares.SockState(old(View()), fd, readable, writable)
    {
      hide Cares.ListGet, Cares.Without, Cares.List;
      if readable + writable > 0 {
        SocketOpened(fd);
      } else {
        SocketClosed(fd);
      }
    }

    /** `dslite_ares_addrinfo_cb`: the first node that is not IPv4 decides. */
    method AddrInfo(o: Model.Oracle, answer: Model.Answer) returns (result: Option<string>)
      modifies this
      ensures View() == Cares.AddrInfo(old(View()))
      ensures result == Resolver.ResultOf(o, answer)
    {
      pending := false;
      dnsTimer := Cares.Stop(dnsTimer);
      result := None;
      if answer.Nodes? {
        var nodes := answer.nodes;
        var i := 0;
        while i < |nodes|
          invariant 0 <= i <= |nodes|
          invariant forall j :: 0 <= j < i ==> nodes[j].inet4
        {
          if !nodes[i].inet4 {
            result := Some(o.ntop(nodes[i].addr));
            break;
          }
          i := i + 1;
        }
        assert Resolver.FirstV6(nodes) == if i < |nodes| then Some(i) else None;
      }
      completions := completions + 1;
    }

    /** `ares_destroy` as the adapter sees it: its own callbacks, for the sockets c-ares closes. */
    method AresDestroy(socks: seq<int>)
      modifies this
      ensures View() == Cares.AresDestroy(old(View()), socks)
    {
      hide Cares.SockState;
      if pending {
        pending := false;
        dnsTimer := Cares.Stop(dnsTimer);
        completions := completions + 1;
      }
      ghost var q := View();
      var i := 0;
      while i < |socks|
        invariant 0 <= i <= |socks|
        invariant Cares.CloseSockets(View(), socks[i..]) == Cares.CloseSockets(q, socks)
      {
        assert socks[i..][1..] == socks[i + 1..];
        SockState(socks[i], 0, 0);
        i := i + 1;
      }
      destroyed := destroyed + 1;
    }

    /** `dslite_ares_destroy_channel_cb`. */
    method DestroyExpired(socks: seq<int>)
      modifies this
      ensures View() == Cares.DestroyExpired(old(View()), socks)
    {
      destroyTimer := Cares.Stop(destroyTimer);
      if channel {
        AresDestroy(socks);
        channel := false;
        destroyTimer := Cares.NoTimer;
      }
    }

    /** `delete_ares_timers`. */
    method DeleteTimers()
      modifies this
      ensures View() == Cares.DeleteTimers(old(View()))
    {
      dnsTimer := Cares.NoTimer;
      destroyTimer := Cares.NoTimer;
    }

    /** The first half of `dslite_close_dns_query`: sockets leave the event loop one by one. */
    method ClearSockets()
      modifies `fds, `conns
      ensures fds == None && conns == old(conns) - multiset(Cares.List(old(View())))
    {
      hide Left;
      if fds.Some? {
        var list := fds.value;
        LeftEnds(old(conns), list);
        var i := 0;
        while i < |list|
          invariant 0 <= i <= |list| && fds == Some(list[i..])
          invariant conns == Left(old(conns), list, i)
        {
          DropOne(old(conns), list, i);
          conns := conns - multiset{list[i]};
          fds := Some(list[i + 1..]);
          i := i + 1;
        }
        fds := None;
      }
    }

    /** `dslite_close_dns_query`. */
    method Close(socks: seq<int>)
      modifies this
      ensures View() == Cares.Close(old(View()), socks)
    {
      ClearSockets();
      if channel && destroyTimer != Cares.Running {
        AresDestroy(socks);
        channel := false;
      }
    }

    /** `dslite_is_waiting_for_getaddrinfo`. */
    method IsWaiting() returns (b: bool)
      ensures b == channel
    {
      b := channel;
    }
  }

  /** What is left in the event loop after the first `i` sockets have been removed. */
  ghost function Left(c: multiset<int>, s: seq<int>, i: nat): multiset<int>
    requires i <= |s|
  {
    c - multiset(s[..i])
  }

  lemma LeftEnds(c: multiset<int>, s: seq<int>)
    ensures Left(c, s, 0) == c && Left(c, s, |s|) == c - multiset(s)
  {
    assert s[..|s|] == s && multiset(s[..0]) == multiset{};
    assert c - multiset{} == c;
  }

  lemma DropOne(c: multiset<int>, s: seq<int>, i: nat)
    requires i < |s|
    ensures Left(c, s, i) - multiset{s[i]} == Left(c, s, i + 1)
  {
    assert s[..i + 1] == s[..i] + [s[i]];
  }

  lemma {:induction false} FoundAt(fds: seq<int>, fd: int, k: nat)
    requires k < |fds| && fds[k] == fd && fd !in fds[..k]
    ensures Cares.ListGet(fds, fd) == Some(k)
    decreases k
  {
    if k > 0 {
      assert fds[..k][0] == fds[0] && fds[0] != fd;
      assert fds[1..][..k - 1] == fds[..k][1..];
      FoundAt(fds[1..], fd, k - 1);
    }
  }
}
