/** Bringing the tunnel up and down: dslite_interface.c, with dslite_controller.c and firewall.c. */
module Tunnel {
  import opened Basics
  import opened Model
  import Ioctl

  /** `dslite_build_ctrlr_args_from_object`, given the record. */
  function ControllerArgs(r: Record): Ioctl.Args {
    Ioctl.Args(Some(TUNNEL_DEVICE), r.netdev, Some(r.remote), Some(r.local))
  }

  predicate HasArgs(n: Node) {
    n.pv.priv != NULL && Live(n) && Rec(n).netdev.Some?
  }

  /** What the record pointer is good for: NULL is noticed, a dangling pointer is followed. */
  function Followed(n: Node): Node {
    if n.pv.priv != NULL && !Live(n) then Fault(n) else n
  }

  /** `update_dslite_tunnel`. */
  function UpdateTunnel(n: Node): Res {
    if !HasArgs(n) then Res(Followed(n), -1)
    else
      var t := n.env.o.add(n.env.kernel, ControllerArgs(Rec(n)));
      Res(n.(env := n.env.(kernel := t.k)), t.rv)
  }

  /** `delete_dslite_tunnel`. */
  function DeleteTunnel(n: Node): Node {
    if !HasArgs(n) then Followed(n)
    else n.(env := n.env.(kernel := n.env.o.delete(n.env.kernel, ControllerArgs(Rec(n))).k))
  }

  /** `open_firewall`; its caller ignores the return code. */
  function OpenFirewall(n: Node, iface: string): Node {
    var n1 := NextCall(n);
    if n.env.o.firewall(n.env.calls) then n1.(env := n1.env.(services := n.env.services[SERVICE := iface])) else n1
  }

  /** `close_firewall`. */
  function CloseFirewall(n: Node): Node {
    var n1 := NextCall(n);
    if n.env.o.firewall(n.env.calls) then n1.(env := n1.env.(services := n.env.services - {SERVICE})) else n1
  }

  /** The row an IP interface gets; only the tunneled one has its lower layer rewritten. */
  function NewRow(n: Node, name: string, enable: bool, tunneled: bool): IpRow {
    IpRow(enable,
          if tunneled then (if enable then "Device." + n.dm.path else "")
          else if name in n.env.ip then n.env.ip[name].lowerLayers else "")
  }

  /** `toggle_ip_interface`. */
  function ToggleIp(n: Node, enable: bool, tunneled: bool): Res {
    var name := if tunneled then n.dm.tunneledIf else n.dm.tunnelIf;
    if name == "" then Res(n, -1)
    else
      var n1, rv := NextCall(n), n.env.o.ip(n.env.calls);
      if rv == 0 then Res(n1.(env := n1.env.(ip := n.env.ip[name := NewRow(n, name, enable, tunneled)])), 0)
      else Res(n1, rv)
  }

  /** `toggle_dslite_ip_interfaces`. */
  function ToggleIps(n: Node, enable: bool): Res {
    var t := ToggleIp(n, enable, true);
    if t.rv != 0 then t else ToggleIp(t.n, enable, false)
  }

  /** `update_interface_status`: one transaction, refused when a value is too long. */
  function UpdateStatus(n: Node, s: Status): Node {
    if n.pv.priv == NULL then n
    else if s != Enabled then
      n.(dm := n.dm.(inUse := "", localAddress := "", status := s, origin := n.dm.precedence))
    else if !Live(n) then Fault(n)
    else if |Rec(n).remote| > ADDRLEN then n
    else
      n.(dm := n.dm.(inUse := Rec(n).remote, localAddress := Rec(n).local, status := Enabled,
                     origin := n.dm.precedence, usedVia := Rec(n).via))
  }

  /** `setup_dslite_interface` up to its exit label. */
  function BringUp(n: Node): Res {
    if n.dm.wan == "" then Res(n, -1)
    else
      var u := UpdateTunnel(n);
      if u.rv != 0 then u
      else
        var t := ToggleIps(OpenFirewall(u.n, n.dm.wan), true);
        if t.rv < 0 then Res(DeleteTunnel(CloseFirewall(t.n)), t.rv) else t
  }

  /** `setup_dslite_interface`. */
  function Setup(n: Node): Node {
    var b := BringUp(n);
    UpdateStatus(b.n, if b.rv == 0 then Enabled else Error)
  }

  /** The steps that take a tunnel down. */
  function TakeDown(n: Node): Node {
    ToggleIps(CloseFirewall(DeleteTunnel(n)), false).n
  }

  /** `disable_interface`. */
  function Disable(n: Node, s: Status): Node {
    if s == Enabled then n
    else
      UpdateStatus(if n.dm.status == Enabled then TakeDown(n) else n, s)
  }
}
