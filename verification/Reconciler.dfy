/** The controller's methods, written as the Go code runs them. Each is proved to follow the step
    machine from the counter it starts at to the counter it returns at, under any interference and
    any faults, so everything proved about runs of the machine is about these methods. */
module Reconciler {
  import opened Names
  import opened Cluster
  import opened Protocol
  import opened Pass
  import Finalizers

  /** The clients of both clusters. Others may move before every request. */
  class Api {
    const o: Oracle
    var w: World
    var calls: nat

    constructor (o: Oracle, w: World)
      ensures this.o == o && this.w == w && calls == 0
    {
      this.o := o;
      this.w := w;
      calls := 0;
    }

    /** What remains of a pass of `k` that is at `pc`. */
    ghost function Rest(ns: string, k: Key, pc: PC): Outcome
      reads this
    {
      Run(ns, k, o, pc, w, calls)
    }

    /** One request of the worker at `pc`: others move until it is served. */
    method Ask(ghost ns: string, ghost k: Key, ghost pc: PC, r: Request) returns (resp: Response, ghost next: PC)
      requires !pc.Done? && forall now, c :: RequestOf(ns, k, pc, now, c) == r
      modifies this
      ensures calls == old(calls) + 1
      ensures next == Continue(k, pc, resp, w.clock, o.choice(old(calls)))
      ensures old(Rest(ns, k, pc)) == Rest(ns, k, next)
    {
      ghost var before, i := w, calls;
      ghost var c := o.choice(i);
      w := o.env(calls, w);
      ghost var at := w;
      assert RequestOf(ns, k, pc, at.clock, c) == r;
      resp := Reply(w, r, o.fault(calls));
      w := WorldAfter(w, r, o.fault(calls));
      calls := calls + 1;
      next := StepServed(ns, k, o, pc, before, i, r, at, resp, w);
    }

    /** The same for a request whose content depends on the clock at which it is served. */
    method Make(ghost ns: string, ghost k: Key, ghost md: MachineDeployment, ghost osp: OspSpec, name: string)
      returns (resp: Response, token: Token, ghost next: PC)
      requires name == BootstrapKey(k)
      modifies this
      ensures calls == old(calls) + 1
      ensures next == Continue(k, TokenCreate(md, osp), resp, w.clock, o.choice(old(calls)))
      ensures old(Rest(ns, k, TokenCreate(md, osp))) == Rest(ns, k, next)
      ensures var c := o.choice(old(calls)); token.id == c.id && token.secret == c.secret
    {
      ghost var before, i := w, calls;
      w := o.env(calls, w);
      ghost var at := w;
      var c := o.choice(calls);
      token := Token(name, c.id, c.secret, Some(RenewedExpiry(w.clock)), 0);
      var r := CreateToken(TokenSecretName(c), token);
      resp := Reply(w, r, o.fault(calls));
      w := WorldAfter(w, r, o.fault(calls));
      calls := calls + 1;
      next := CreateServed(ns, k, o, md, osp, before, i, token, at, resp, w);
    }
  }

  /** Serving the request of a step carries a pass one step on. */
  lemma StepServed(ns: string, k: Key, o: Oracle, pc: PC, before: World, i: nat, r: Request,
                   at: World, resp: Response, after: World) returns (next: PC)
    requires !pc.Done? && RequestOf(ns, k, pc, at.clock, o.choice(i)) == r
    requires at == o.env(i, before) && resp == Reply(at, r, o.fault(i)) && after == WorldAfter(at, r, o.fault(i))
    ensures next == Continue(k, pc, resp, after.clock, o.choice(i))
    ensures Run(ns, k, o, pc, before, i) == Run(ns, k, o, next, after, i + 1)
  {
    next := Continue(k, pc, resp, at.clock, o.choice(i));
  }

  lemma CreateServed(ns: string, k: Key, o: Oracle, md: MachineDeployment, osp: OspSpec, before: World, i: nat,
                     token: Token, at: World, resp: Response, after: World) returns (next: PC)
    requires at == o.env(i, before) && token == NewToken(k, at.clock, o.choice(i))
    requires var r := CreateToken(TokenSecretName(o.choice(i)), token);
      resp == Reply(at, r, o.fault(i)) && after == WorldAfter(at, r, o.fault(i))
    ensures next == Continue(k, TokenCreate(md, osp), resp, after.clock, o.choice(i))
    ensures Run(ns, k, o, TokenCreate(md, osp), before, i) == Run(ns, k, o, next, after, i + 1)
  {
    next := StepServed(ns, k, o, TokenCreate(md, osp), before, i,
                       CreateToken(TokenSecretName(o.choice(i)), token), at, resp, after);
  }

  // ---------------------------------------------------------------- pkg/bootstrap

  class Bootstrap {
    const client: Api

    constructor (client: Api)
      ensures this.client == client
    {
      this.client := client;
    }

    /** A usable token for `name`: the only existing one, renewed if it is close to expiry, or a new
        one. */
    method CreateBootstrapToken(ghost ns: string, ghost k: Key, ghost md: MachineDeployment, ghost osp: OspSpec,
        name: string)
      returns (token: string, updated: bool, err: bool)
      requires name == BootstrapKey(k)
      modifies client
      ensures old(client.Rest(ns, k, TokenList(md, osp)))
           == client.Rest(ns, k, if err then Done(true) else KubeGet(md, osp, token, updated))
    {
      token, updated := "", false;
      var before := client.calls;
      var r, next := client.Ask(ns, k, TokenList(md, osp), ListTokens(name));
      if !r.IsTokens? || |r.tokens| > 1 {
        return token, updated, true;
      }
      if |r.tokens| == 1 {
        token, err := UpdateSecretExpirationAndGetToken(ns, k, md, osp, r.tokens, client.o.choice(before).broken, next);
        return token, true, err;
      }
      var i := client.calls;
      var created, secret, after := client.Make(ns, k, md, osp, name);
      if !created.Ok? || client.o.choice(i).broken {
        return token, updated, true;
      }
      return secret.id + "." + secret.secret, false, false;
    }

    /** Pushes the expiry an hour ahead if less than thirty minutes are left. */
    method UpdateSecretExpirationAndGetToken(ghost ns: string, ghost k: Key, ghost md: MachineDeployment,
        ghost osp: OspSpec,
                                             tokens: map<string, Token>, broken: bool, ghost pc: PC)
      returns (token: string, err: bool)
      requires |tokens| == 1
      requires exists c: Choice ::
        c.broken == broken && pc == Continue(k, TokenList(md, osp), IsTokens(tokens), client.w.clock, c)
      modifies client
      ensures old(client.Rest(ns, k, pc))
           == client.Rest(ns, k, if err then Done(true) else KubeGet(md, osp, token, true))
    {
      var name := OnlyToken(tokens);
      var secret := tokens[name];
      token := Text(secret);
      if secret.expiry.None? {
        return token, true;
      }
      if CloseToExpiry(client.w.clock, secret.expiry.value) {
        var renewed := secret.(expiry := Some(RenewedExpiry(client.w.clock)));
        var i := client.calls;
        var r, next := client.Ask(ns, k, TokenRenew(md, osp, name, renewed), UpdateToken(name, renewed));
        return token, !r.Ok? || client.o.choice(i).broken;
      }
      return token, broken;
    }

    /** A token for `name` and the kubeconfig secret that carries it. */
    method CreateBootstrapKubeconfig(ghost ns: string, ghost k: Key, ghost md: MachineDeployment, ghost osp: OspSpec,
        name: string)
      returns (token: string, err: bool)
      requires name == BootstrapKey(k)
      modifies client
      ensures old(client.Rest(ns, k, TokenList(md, osp)))
           == client.Rest(ns, k, if err then Done(true) else OscGet(md, osp, token))
    {
      var updated;
      token, updated, err := CreateBootstrapToken(ns, k, md, osp, name);
      if !err {
        err := StoreKubeconfig(ns, k, md, osp, name + KUBELET_SUFFIX, token, updated);
      }
    }

    /** Created if absent, left alone if the token was only renewed, otherwise overwritten with the
        new token. */
    method StoreKubeconfig(ghost ns: string, ghost k: Key, ghost md: MachineDeployment, ghost osp: OspSpec,
                           configName: string, token: string, updated: bool)
      returns (err: bool)
      requires configName == KubeName(k)
      modifies client
      ensures old(client.Rest(ns, k, KubeGet(md, osp, token, updated)))
           == client.Rest(ns, k, if err then Done(true) else OscGet(md, osp, token))
    {
      var found, next := client.Ask(ns, k, KubeGet(md, osp, token, updated), GetSecret(configName));
      if found.NotFound? {
        var created, end := client.Ask(ns, k, KubeCreate(md, osp, token), CreateSecret(configName, Kubeconfig(token,
            0)));
        return !created.Ok?;
      }
      if !found.IsSecret? {
        return true;
      }
      if updated {
        return false;
      }
      var rv := SecretVersion(found.secret);
      var written, end := client.Ask(ns, k, KubeUpdate(md, osp, token, rv), UpdateSecret(configName, Kubeconfig(token,
          rv)));
      return !written.Ok?;
    }
  }

  // ---------------------------------------------------------------- pkg/controllers/osc

  class OscReconciler {
    const client: Api
    const bootstrapping: Bootstrap
    const ns: string

    ghost predicate Valid() {
      bootstrapping.client == client
    }

    constructor (client: Api, ns: string)
      ensures Valid() && this.client == client && this.ns == ns
    {
      this.client := client;
      this.bootstrapping := new Bootstrap(client);
      this.ns := ns;
    }

    /** One pass over `k`. */
    method Reconcile(k: Key) returns (err: bool)
      requires Valid()
      modifies client
      ensures old(client.Rest(ns, k, ReadMD)) == Outcome(client.w, err, client.calls)
    {
      var r, next := client.Ask(ns, k, ReadMD, GetMD(k));
      if r.NotFound? {
        return false;
      }
      if !r.IsMD? {
        return true;
      }
      var md := r.md;
      if md.deleting {
        if Finalizers.HasFinalizer(md.finalizers, FINALIZER) {
          err := HandleMachineDeploymentCleanup(k, md);
          return;
        }
        return false;
      }
      if !Finalizers.HasFinalizer(md.finalizers, FINALIZER) {
        md := md.(finalizers := Finalizers.AddFinalizer(md.finalizers, FINALIZER));
        var updated, end := client.Ask(ns, k, AddFin(md), UpdateMD(k, md));
        if !updated.IsMD? {
          return true;
        }
        md := updated.md;
      }
      err := ReconcileMachineDeployment(k, md);
    }

    method ReconcileMachineDeployment(k: Key, md: MachineDeployment) returns (err: bool)
      requires Valid()
      modifies client
      ensures old(client.Rest(ns, k, FetchOSP(md))) == Outcome(client.w, err, client.calls)
    {
      var r, next := client.Ask(ns, k, FetchOSP(md), GetOSP(OspKey(ns, md)));
      if !r.IsOSP? || !Supports(md, r.osp) {
        return true;
      }
      var osp := r.osp;
      err := HandleOSCAndSecretsRotation(k, md, osp);
      if err {
        return;
      }
      err := ReconcileOperatingSystemConfigs(k, md, osp);
      if err {
        return;
      }
      err := ReconcileSecrets(k, md, osp);
    }

    /** Deletes the OSC and the generated secrets if the stored stamp is not the current one. */
    method HandleOSCAndSecretsRotation(k: Key, md: MachineDeployment, osp: OspSpec) returns (err: bool)
      requires Valid()
      modifies client
      ensures old(client.Rest(ns, k, RotGet(md, osp)))
           == client.Rest(ns, k, if err then Done(true) else TokenList(md, osp))
    {
      var name := OscName(k);
      var r, next := client.Ask(ns, k, RotGet(md, osp), GetOSC(name));
      if r.NotFound? {
        return false;
      }
      if !r.IsOSC? {
        return true;
      }
      if r.osc.stamp == StampOf(md, osp) {
        return false;
      }
      var deleted, end := client.Ask(ns, k, RotDel(md, osp, OscSlot), DeleteOSC(name));
      if !deleted.Ok? {
        return true;
      }
      err := DeleteGeneratedSecrets(k, RotDel(md, osp, ProvSlot));
    }

    ghost function NextDelete(pc: PC): PC
      requires pc.RotDel? || pc.CleanDel?
    {
      match pc.slot
      case OscSlot => pc.(slot := ProvSlot)
      case ProvSlot => pc.(slot := BootSlot)
      case BootSlot => pc.(slot := KubeSlot)
      case KubeSlot => if pc.RotDel? then TokenList(pc.md, pc.osp) else RemoveFin(pc.md)
    }

    /** Deletes one secret; an absent one is fine. */
    method DeleteGeneratedSecret(k: Key, slot: Slot, ghost pc: PC) returns (err: bool)
      requires (pc.RotDel? || pc.CleanDel?) && pc.slot == slot != OscSlot
      modifies client
      ensures old(client.Rest(ns, k, pc)) == client.Rest(ns, k, if err then Done(true) else NextDelete(pc))
    {
      var r, next := client.Ask(ns, k, pc, DeleteSecret(SecretName(k, slot)));
      return !r.Ok? && !r.NotFound?;
    }

    /** Deletes the three secrets of `k`, for a rotation or for a cleanup. */
    method DeleteGeneratedSecrets(k: Key, ghost pc: PC) returns (err: bool)
      requires (pc.RotDel? || pc.CleanDel?) && pc.slot == ProvSlot
      modifies client
      ensures old(client.Rest(ns, k, pc))
           == client.Rest(ns, k, if err then Done(true) else if pc.RotDel? then TokenList(pc.md, pc.osp)
               else RemoveFin(pc.md))
    {
      err := DeleteGeneratedSecret(k, ProvSlot, pc);
      if err {
        return;
      }
      err := DeleteGeneratedSecret(k, BootSlot, NextDelete(pc));
      if err {
        return;
      }
      err := DeleteGeneratedSecret(k, KubeSlot, NextDelete(NextDelete(pc)));
    }

    /** Secures token and kubeconfig, then makes the OSC unless it can be read. */
    method ReconcileOperatingSystemConfigs(k: Key, md: MachineDeployment, osp: OspSpec) returns (err: bool)
      requires Valid()
      modifies client
      ensures old(client.Rest(ns, k, TokenList(md, osp)))
           == client.Rest(ns, k, if err then Done(true) else OscReread(md, osp))
    {
      var machineDeploymentKey := k.ns + "-" + k.name;
      if |machineDeploymentKey| >= KEY_LIMIT {
        machineDeploymentKey := k.name;
      }
      var token;
      token, err := bootstrapping.CreateBootstrapKubeconfig(ns, k, md, osp, machineDeploymentKey);
      if err {
        return;
      }
      err := EnsureOperatingSystemConfig(k, md, osp, token);
    }

    /** OSCs are immutable: one that can be read is kept. */
    method EnsureOperatingSystemConfig(k: Key, md: MachineDeployment, osp: OspSpec, token: string) returns (err: bool)
      modifies client
      ensures old(client.Rest(ns, k, OscGet(md, osp, token)))
           == client.Rest(ns, k, if err then Done(true) else OscReread(md, osp))
    {
      var found, next := client.Ask(ns, k, OscGet(md, osp, token), GetOSC(OscName(k)));
      if found.IsOSC? {
        return false;
      }
      if !UtilityAccepted(md, osp) {
        return true;
      }
      err := CreateOperatingSystemConfig(k, md, osp, token);
    }

    method CreateOperatingSystemConfig(k: Key, md: MachineDeployment, osp: OspSpec, token: string) returns (err: bool)
      modifies client
      ensures old(client.Rest(ns, k, ReadExternal(md, osp, token)))
           == client.Rest(ns, k, if err then Done(true) else OscReread(md, osp))
    {
      var i := client.calls;
      var external, next := client.Ask(ns, k, ReadExternal(md, osp, token), GetExternal);
      if !external.Ok? || client.o.choice(i).broken || !md.template.strict {
        return true;
      }
      if IsEdge(md) {
        err := GenerateEdgeScript(k, md, osp, token);
        if err {
          return;
        }
      }
      err := StoreOperatingSystemConfig(k, md, osp, token);
    }

    method StoreOperatingSystemConfig(k: Key, md: MachineDeployment, osp: OspSpec, token: string) returns (err: bool)
      modifies client
      ensures old(client.Rest(ns, k, OscCreate(md, osp, token)))
           == client.Rest(ns, k, if err then Done(true) else OscReread(md, osp))
    {
      var osc := OSC(StampOf(md, osp), GenerateOsc(k, md, osp, token));
      var created, next := client.Ask(ns, k, OscCreate(md, osp, token), CreateOSC(OscName(k), osc));
      return !created.Ok?;
    }

    /** Always creates the script secret, even when it was found. */
    method GenerateEdgeScript(k: Key, md: MachineDeployment, osp: OspSpec, token: string) returns (err: bool)
      modifies client
      ensures old(client.Rest(ns, k, EdgeGet(md, osp, token)))
           == client.Rest(ns, k, if err then Done(true) else OscCreate(md, osp, token))
    {
      var found, next := client.Ask(ns, k, EdgeGet(md, osp, token), GetSecret(EdgeName(k)));
      if found.Failed? {
        return true;
      }
      var created, end := client.Ask(ns, k, next, CreateSecret(EdgeName(k), EdgeScript(k, 0)));
      return !created.Ok?;
    }

    /** Both cloud-config secrets, from the OSC as it is stored. */
    method ReconcileSecrets(k: Key, md: MachineDeployment, osp: OspSpec) returns (err: bool)
      modifies client
      ensures old(client.Rest(ns, k, OscReread(md, osp))) == Outcome(client.w, err, client.calls)
    {
      var r, next := client.Ask(ns, k, OscReread(md, osp), GetOSC(OscName(k)));
      if !r.IsOSC? {
        return true;
      }
      err := EnsureCloudConfigSecret(k, md, osp, r.osc, ProvSlot);
      if err {
        return;
      }
      err := EnsureCloudConfigSecret(k, md, osp, r.osc, BootSlot);
    }

    /** Creates a cloud-config secret unless it can be read; it is never changed. */
    method EnsureCloudConfigSecret(k: Key, md: MachineDeployment, osp: OspSpec, osc: OSC,
        slot: Slot) returns (err: bool)
      requires slot == ProvSlot || slot == BootSlot
      modifies client
      ensures old(client.Rest(ns, k, CloudGet(md, osp, osc, slot)))
           == client.Rest(ns, k, if err then Done(true) else AfterCloud(md, osp, osc, slot))
    {
      var name := SecretName(k, slot);
      var i := client.calls;
      var found, next := client.Ask(ns, k, CloudGet(md, osp, osc, slot), GetSecret(name));
      if found.IsSecret? {
        return false;
      }
      if !Generates(md, osc.spec) || client.o.choice(i).broken {
        return true;
      }
      err := CreateCloudConfigSecret(k, md, osp, osc, slot);
    }

    /** Stores the user data generated from the OSC that was read back. */
    method CreateCloudConfigSecret(k: Key, md: MachineDeployment, osp: OspSpec, osc: OSC,
        slot: Slot) returns (err: bool)
      requires slot == ProvSlot || slot == BootSlot
      modifies client
      ensures old(client.Rest(ns, k, CloudCreate(md, osp, osc, slot)))
           == client.Rest(ns, k, if err then Done(true) else AfterCloud(md, osp, osc, slot))
    {
      var secret := CloudConfig(StampOf(md, osp), UserData(k, slot, osc.spec, md.template));
      var created, next := client.Ask(ns, k, CloudCreate(md, osp, osc, slot), CreateSecret(SecretName(k, slot),
          secret));
      return !created.Ok?;
    }

    /** An OSC that is gone already counts as deleted. */
    method DeleteOperatingSystemConfig(k: Key, md: MachineDeployment) returns (err: bool)
      modifies client
      ensures old(client.Rest(ns, k, CleanDel(md, OscSlot)))
           == client.Rest(ns, k, if err then Done(true) else CleanDel(md, ProvSlot))
    {
      var r, next := client.Ask(ns, k, CleanDel(md, OscSlot), DeleteOSC(OscName(k)));
      return !r.Ok? && !r.NotFound?;
    }

    /** Deletes the OSC, then the secrets, then takes the finalizer off. */
    method HandleMachineDeploymentCleanup(k: Key, md: MachineDeployment) returns (err: bool)
      requires Valid()
      modifies client
      ensures old(client.Rest(ns, k, CleanDel(md, OscSlot))) == Outcome(client.w, err, client.calls)
    {
      err := DeleteOperatingSystemConfig(k, md);
      if err {
        return;
      }
      err := DeleteGeneratedSecrets(k, CleanDel(md, ProvSlot));
      if err {
        return;
      }
      var released := md.(finalizers := Finalizers.RemoveFinalizer(md.finalizers, FINALIZER));
      var updated, end := client.Ask(ns, k, RemoveFin(md), UpdateMD(k, released));
      return !updated.IsMD?;
    }
  }
}
