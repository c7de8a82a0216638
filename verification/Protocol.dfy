/** The OSC controller as a step machine.

    A pass over one MachineDeployment is a program counter (with the locals the Go code holds at
    that point) that issues one API request at a time. Workers of different deployments, users and
    the token cleaner interleave between any two requests. */
module Protocol {
  import opened Names
  import opened Cluster
  import Finalizers

  // ---------------------------------------------------------------- clock

  /** Times are nanoseconds. */
  const SECOND := 1_000_000_000
  const MINUTE := 60 * SECOND
  const HOUR := 60 * MINUTE

  /** One hour from now, as an RFC 3339 timestamp keeps it: whole seconds. */
  function RenewedExpiry(now: int): int {
    (now + HOUR) / SECOND * SECOND
  }

  predicate CloseToExpiry(now: int, expiry: int) {
    expiry - now < 30 * MINUTE
  }

  // ---------------------------------------------------------------- local decisions

  function OspKey(ns: string, md: MachineDeployment): Key {
    var custom := Annotation(md.annotations, OSP_NAMESPACE_ANNOTATION);
    Key(if custom == "" then ns else custom, Annotation(md.annotations, OSP_ANNOTATION))
  }

  predicate Supports(md: MachineDeployment, osp: OspSpec) {
    && md.template.decoded.Some?
    && osp.osName == md.template.decoded.value.os
    && md.template.decoded.value.cloud in osp.clouds
  }

  /** Only Flatcar can choose; None stands for a provider config that does not decode. */
  function ProvisioningUtility(osName: string, t: Template): Option<string> {
    if osName != "flatcar" then Some("cloud-init")
    else if !t.strict || t.decoded.None? || t.decoded.value.flatcarUtility.None? then None
    else if t.decoded.value.flatcarUtility.value == "" then Some("ignition")
    else t.decoded.value.flatcarUtility
  }

  /** The check before an OSC is generated: an empty profile utility accepts anything. */
  predicate UtilityAccepted(md: MachineDeployment, osp: OspSpec) {
    var utility := ProvisioningUtility(osp.osName, md.template);
    utility.Some? && (osp.utility == "" || utility.value == osp.utility)
  }

  function GenerateOsc(k: Key, md: MachineDeployment, osp: OspSpec, token: string): OscSpec {
    OscSpec(k, md.annotations, md.template, osp, token, if osp.utility == "" then "cloud-init" else osp.utility)
  }

  /** Whether user data can be generated from a stored OSC. */
  predicate Generates(md: MachineDeployment, spec: OscSpec) {
    && md.template.strict
    && ProvisioningUtility(spec.osp.osName, md.template) == Some(spec.utility)
  }

  predicate IsEdge(md: MachineDeployment) {
    md.template.decoded.Some? && md.template.decoded.value.cloud == "edge"
  }

  // ---------------------------------------------------------------- program counters

  datatype PC =
    | Done(err: bool)
    | ReadMD
    | AddFin(md: MachineDeployment)
    | FetchOSP(md: MachineDeployment)
    | RotGet(md: MachineDeployment, osp: OspSpec)
    | RotDel(md: MachineDeployment, osp: OspSpec, slot: Slot)
    | TokenList(md: MachineDeployment, osp: OspSpec)
    | TokenCreate(md: MachineDeployment, osp: OspSpec)
    | TokenRenew(md: MachineDeployment, osp: OspSpec, name: string, token: Token)
    | KubeGet(md: MachineDeployment, osp: OspSpec, text: string, renewed: bool)
    | KubeCreate(md: MachineDeployment, osp: OspSpec, text: string)
    | KubeUpdate(md: MachineDeployment, osp: OspSpec, text: string, rv: nat)
    | OscGet(md: MachineDeployment, osp: OspSpec, text: string)
    | ReadExternal(md: MachineDeployment, osp: OspSpec, text: string)
    | EdgeGet(md: MachineDeployment, osp: OspSpec, text: string)
    | EdgeCreate(md: MachineDeployment, osp: OspSpec, text: string)
    | OscCreate(md: MachineDeployment, osp: OspSpec, text: string)
    | OscReread(md: MachineDeployment, osp: OspSpec)
    | CloudGet(md: MachineDeployment, osp: OspSpec, osc: OSC, slot: Slot)
    | CloudCreate(md: MachineDeployment, osp: OspSpec, osc: OSC, slot: Slot)
    | CleanDel(md: MachineDeployment, slot: Slot)
    | RemoveFin(md: MachineDeployment)

  /** What chance decides in one step: the random token, and whether a local computation fails. */
  datatype Choice = Choice(id: string, secret: string, broken: bool)

  function NewToken(k: Key, now: int, c: Choice): Token {
    Token(BootstrapKey(k), c.id, c.secret, Some(RenewedExpiry(now)), 0)
  }

  function TokenSecretName(c: Choice): string {
    "bootstrap-token-" + c.id
  }

  function CloudSecret(k: Key, md: MachineDeployment, osp: OspSpec, osc: OSC, slot: Slot): Secret {
    CloudConfig(StampOf(md, osp), UserData(k, slot, osc.spec, md.template))
  }

  /** The request a counter issues next. */
  function RequestOf(ns: string, k: Key, pc: PC, now: int, c: Choice): Request
    requires !pc.Done?
  {
    match pc
    case ReadMD => GetMD(k)
    case AddFin(md) => UpdateMD(k, md)
    case FetchOSP(md) => GetOSP(OspKey(ns, md))
    case RotGet(_, _) => GetOSC(OscName(k))
    case RotDel(_, _, slot) => DeleteSlot(k, slot)
    case TokenList(_, _) => ListTokens(BootstrapKey(k))
    case TokenCreate(_, _) => CreateToken(TokenSecretName(c), NewToken(k, now, c))
    case TokenRenew(_, _, name, token) => UpdateToken(name, token)
    case KubeGet(_, _, _, _) => GetSecret(KubeName(k))
    case KubeCreate(_, _, text) => CreateSecret(KubeName(k), Kubeconfig(text, 0))
    case KubeUpdate(_, _, text, rv) => UpdateSecret(KubeName(k), Kubeconfig(text, rv))
    case OscGet(_, _, _) => GetOSC(OscName(k))
    case ReadExternal(_, _, _) => GetExternal
    case EdgeGet(_, _, _) => GetSecret(EdgeName(k))
    case EdgeCreate(_, _, _) => CreateSecret(EdgeName(k), EdgeScript(k, 0))
    case OscCreate(md, osp, text) =>
      CreateOSC(OscName(k), OSC(StampOf(md, osp), GenerateOsc(k, md, osp, text)))
    case OscReread(_, _) => GetOSC(OscName(k))
    case CloudGet(_, _, _, slot) => GetSecret(CloudName(k, slot))
    case CloudCreate(md, osp, osc, slot) =>
      CreateSecret(CloudName(k, slot), CloudSecret(k, md, osp, osc, slot))
    case CleanDel(_, slot) => DeleteSlot(k, slot)
    case RemoveFin(md) => UpdateMD(k, md.(finalizers := Finalizers.RemoveFinalizer(md.finalizers, FINALIZER)))
  }

  function DeleteSlot(k: Key, slot: Slot): Request {
    if slot == OscSlot then DeleteOSC(OscName(k)) else DeleteSecret(SecretName(k, slot))
  }

  /** Name of a cloud-config secret: a pass only gets and creates these two slots. */
  function CloudName(k: Key, slot: Slot): string {
    if slot == ProvSlot then ProvName(k) else BootName(k)
  }

  function SecretVersion(s: Secret): nat {
    if s.CloudConfig? then 0 else s.rv
  }

  /** The only token of a one-element listing. */
  function OnlyToken(tokens: map<string, Token>): (name: string)
    requires |tokens| == 1
    ensures name in tokens
  {
    OneKey(tokens);
    var name :| name in tokens;
    name
  }

  lemma OneKey(tokens: map<string, Token>)
    requires |tokens| == 1
    ensures exists n :: n in tokens
    ensures forall m, n :: m in tokens && n in tokens ==> m == n
  {
    assert |tokens.Keys| == 1;
    var n :| n in tokens.Keys;
    assert |tokens.Keys - {n}| == 0;
    assert tokens.Keys == {n};
  }

  /** Where a pass goes on the answer to its request. */
  function Continue(k: Key, pc: PC, r: Response, now: int, c: Choice): PC
    requires !pc.Done?
  {
    match pc
    case ReadMD =>
      if r.NotFound? then Done(false)
      else if !r.IsMD? then Done(true)
      else if r.md.deleting then
        if Finalizers.HasFinalizer(r.md.finalizers, FINALIZER) then CleanDel(r.md, OscSlot) else Done(false)
      else if Finalizers.HasFinalizer(r.md.finalizers, FINALIZER) then FetchOSP(r.md)
      else AddFin(r.md.(finalizers := Finalizers.AddFinalizer(r.md.finalizers, FINALIZER)))
    case AddFin(_) => if r.IsMD? then FetchOSP(r.md) else Done(true)
    case FetchOSP(md) => if r.IsOSP? && Supports(md, r.osp) then RotGet(md, r.osp) else Done(true)
    case RotGet(md, osp) =>
      if r.NotFound? then TokenList(md, osp)
      else if !r.IsOSC? then Done(true)
      else if r.osc.stamp == StampOf(md, osp) then TokenList(md, osp)
      else RotDel(md, osp, OscSlot)
    case RotDel(md, osp, slot) =>
      if r.Ok? || (slot != OscSlot && r.NotFound?) then
        match slot
        case OscSlot => RotDel(md, osp, ProvSlot)
        case ProvSlot => RotDel(md, osp, BootSlot)
        case BootSlot => RotDel(md, osp, KubeSlot)
        case KubeSlot => TokenList(md, osp)
      else Done(true)
    case TokenList(md, osp) =>
      if !r.IsTokens? || |r.tokens| > 1 then Done(true)
      else if |r.tokens| == 0 then TokenCreate(md, osp)
      else
        var name := OnlyToken(r.tokens);
        var token := r.tokens[name];
        if token.expiry.None? then Done(true)
        else if CloseToExpiry(now, token.expiry.value) then
          TokenRenew(md, osp, name, token.(expiry := Some(RenewedExpiry(now))))
        else if c.broken then Done(true)
        else KubeGet(md, osp, Text(token), true)
    case TokenCreate(md, osp) =>
      if r.Ok? && !c.broken then KubeGet(md, osp, c.id + "." + c.secret, false) else Done(true)
    case TokenRenew(md, osp, _, token) =>
      if r.Ok? && !c.broken then KubeGet(md, osp, Text(token), true) else Done(true)
    case KubeGet(md, osp, text, renewed) =>
      if r.NotFound? then KubeCreate(md, osp, text)
      else if !r.IsSecret? then Done(true)
      else if renewed then OscGet(md, osp, text)
      else KubeUpdate(md, osp, text, SecretVersion(r.secret))
    case KubeCreate(md, osp, text) => if r.Ok? then OscGet(md, osp, text) else Done(true)
    case KubeUpdate(md, osp, text, _) => if r.Ok? then OscGet(md, osp, text) else Done(true)
    case OscGet(md, osp, text) =>
      if r.IsOSC? then OscReread(md, osp)
      else if UtilityAccepted(md, osp) then ReadExternal(md, osp, text)
      else Done(true)
    case ReadExternal(md, osp, text) =>
      if !r.Ok? || c.broken || !md.template.strict then Done(true)
      else if IsEdge(md) then EdgeGet(md, osp, text)
      else OscCreate(md, osp, text)
    case EdgeGet(md, osp, text) => if r.Failed? then Done(true) else EdgeCreate(md, osp, text)
    case EdgeCreate(md, osp, text) => if r.Ok? then OscCreate(md, osp, text) else Done(true)
    case OscCreate(md, osp, _) => if r.Ok? then OscReread(md, osp) else Done(true)
    case OscReread(md, osp) => if r.IsOSC? then CloudGet(md, osp, r.osc, ProvSlot) else Done(true)
    case CloudGet(md, osp, osc, slot) =>
      if r.IsSecret? then AfterCloud(md, osp, osc, slot)
      else if Generates(md, osc.spec) && !c.broken then CloudCreate(md, osp, osc, slot)
      else Done(true)
    case CloudCreate(md, osp, osc, slot) =>
      if r.Ok? then AfterCloud(md, osp, osc, slot) else Done(true)
    case CleanDel(md, slot) =>
      if r.Ok? || r.NotFound? then
        match slot
        case OscSlot => CleanDel(md, ProvSlot)
        case ProvSlot => CleanDel(md, BootSlot)
        case BootSlot => CleanDel(md, KubeSlot)
        case KubeSlot => RemoveFin(md)
      else Done(true)
    case RemoveFin(_) => Done(!r.IsMD?)
  }

  function AfterCloud(md: MachineDeployment, osp: OspSpec, osc: OSC, slot: Slot): PC {
    if slot == ProvSlot then CloudGet(md, osp, osc, BootSlot) else Done(false)
  }

  /** Slots deleted after this one. */
  function SlotsLeft(slot: Slot): nat {
    match slot case OscSlot => 3 case ProvSlot => 2 case BootSlot => 1 case KubeSlot => 0
  }

  /** Requests a pass can still issue: every pass is finite. */
  function Rank(pc: PC): nat {
    match pc
    case Done(_) => 0
    case ReadMD => 25
    case AddFin(_) => 24
    case FetchOSP(_) => 23
    case RotGet(_, _) => 22
    case RotDel(_, _, slot) => 18 + SlotsLeft(slot)
    case TokenList(_, _) => 17
    case TokenCreate(_, _) => 16
    case TokenRenew(_, _, _, _) => 16
    case KubeGet(_, _, _, _) => 15
    case KubeCreate(_, _, _) => 14
    case KubeUpdate(_, _, _, _) => 14
    case OscGet(_, _, _) => 13
    case ReadExternal(_, _, _) => 12
    case EdgeGet(_, _, _) => 11
    case EdgeCreate(_, _, _) => 10
    case OscCreate(_, _, _) => 9
    case OscReread(_, _) => 8
    case CloudGet(_, _, _, slot) => if slot == ProvSlot then 7 else 5
    case CloudCreate(_, _, _, slot) => if slot == ProvSlot then 6 else 4
    case CleanDel(_, slot) => 21 + SlotsLeft(slot)
    case RemoveFin(_) => 20
  }

  lemma RankDecreases(k: Key, pc: PC, r: Response, now: int, c: Choice)
    requires !pc.Done?
    ensures Rank(Continue(k, pc, r, now, c)) < Rank(pc)
  {
  }

  /** One request of one worker. */
  function WorkerStep(ns: string, k: Key, w: World, pc: PC, fault: Fault, c: Choice): (r: (World, PC))
    requires !pc.Done?
    ensures Rank(r.1) < Rank(pc)
  {
    var r := RequestOf(ns, k, pc, w.clock, c);
    RankDecreases(k, pc, Reply(w, r, fault), w.clock, c);
    (WorldAfter(w, r, fault), Continue(k, pc, Reply(w, r, fault), w.clock, c))
  }

  // ---------------------------------------------------------------- the system

  /** The cluster and the counter of the one worker each deployment can have. */
  datatype System = System(w: World, pcs: map<Key, PC>)

  datatype Event =
    | Begin(key: Key)
    | Step(key: Key, fault: Fault, choice: Choice)
    | Crash(key: Key)
    | UserCreates(key: Key, md: MachineDeployment)
    | UserEdits(key: Key, md: MachineDeployment)
    | UserDeletes(key: Key)
    | PutOSP(key: Key, osp: OspSpec)
    | DropOSP(key: Key)
    | DropToken(name: string)
    | Tick(clock: int)

  function PCOf(s: System, k: Key): PC {
    if k in s.pcs then s.pcs[k] else Done(false)
  }

  function UserStores(w: World, k: Key, md: MachineDeployment): World {
    w.(mds := StoreMD(w.mds, w.rv, k, md), rv := w.rv + 1)
  }

  predicate OnlyKeeps(fs: seq<string>, stored: seq<string>) {
    forall f :: f in fs ==> f in stored
  }

  /** The effect of an event; an event that is not possible changes nothing.

      Nobody but the controller writes owned objects, an edit cannot drop the controller's
      finalizer, change the deletion mark or add finalizers once that is set, and the clock does
      not run backwards. */
  function Next(ns: string, s: System, e: Event): System {
    match e
    case Begin(k) =>
      if PCOf(s, k).Done? then s.(pcs := s.pcs[k := ReadMD]) else s
    case Step(k, fault, c) =>
      if PCOf(s, k).Done? then s
      else
        var (w, pc) := WorkerStep(ns, k, s.w, PCOf(s, k), fault, c);
        System(w, s.pcs[k := pc])
    case Crash(k) => s.(pcs := s.pcs[k := Done(true)])
    case UserCreates(k, md) =>
      if k in s.w.mds then s else s.(w := UserStores(s.w, k, md.(deleting := false)))
    case UserEdits(k, md) =>
      if k !in s.w.mds then s
      else if FINALIZER in s.w.mds[k].finalizers && FINALIZER !in md.finalizers then s
      else if s.w.mds[k].deleting && !OnlyKeeps(md.finalizers, s.w.mds[k].finalizers) then s
      else s.(w := UserStores(s.w, k, md.(deleting := s.w.mds[k].deleting)))
    case UserDeletes(k) =>
      if k !in s.w.mds then s else s.(w := UserStores(s.w, k, s.w.mds[k].(deleting := true)))
    case PutOSP(k, osp) => s.(w := s.w.(osps := s.w.osps[k := osp]))
    case DropOSP(k) => s.(w := s.w.(osps := s.w.osps - {k}))
    case DropToken(n) => s.(w := s.w.(tokens := s.w.tokens - {n}))
    case Tick(t) => if t < s.w.clock then s else s.(w := s.w.(clock := t))
  }

  function Exec(ns: string, s: System, es: seq<Event>): System
    decreases |es|
  {
    if es == [] then s else Exec(ns, Next(ns, s, es[0]), es[1..])
  }

  /** No controller has run yet: deployments, profiles and the clock are arbitrary. */
  ghost predicate Initial(s: System) {
    && s.pcs == map[] && s.w.oscs == map[] && s.w.secrets == map[] && s.w.tokens == map[]
    && forall k :: k in s.w.mds ==> s.w.mds[k].rv < s.w.rv
  }

  lemma {:induction false} ExecAppend(ns: string, s: System, es: seq<Event>, fs: seq<Event>)
    ensures Exec(ns, s, es + fs) == Exec(ns, Exec(ns, s, es), fs)
    decreases |es|
  {
    if es == [] {
      assert es + fs == fs;
    } else {
      assert (es + fs)[1..] == es[1..] + fs;
      ExecAppend(ns, Next(ns, s, es[0]), es[1..], fs);
    }
  }
}
