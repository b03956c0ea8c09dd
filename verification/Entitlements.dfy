/**
  Run and token metering (crates/cairn-app/src/entitlements.rs).

  `Apply` is the sequential meaning of the metering calls; the class
  `EntitlementService` keeps the two maps of the source in place and is proved
  to follow it.  The results are about whole traces of calls, for one tenant
  among any number of others: how much usage any day or any month can see.
 */
module Entitlements {
  import opened Common
  import opened WindowLedger

  datatype PlanTier = Free | Pro | Enterprise

  /** A limit of 0 means unlimited. */
  datatype PlanLimits = PlanLimits(maxRunsPerDay: nat, maxTokensPerMonth: nat)

  function ForTier(tier: PlanTier): PlanLimits {
    match tier
    case Free => PlanLimits(50, 100_000)
    case Pro => PlanLimits(1_000, 5_000_000)
    case Enterprise => PlanLimits(0, 0)
  }

  datatype Resource = RunsPerDay | TokensPerMonth

  datatype EntitlementError =
    | LimitExceeded(resource: Resource, current: nat, limit: nat, tier: PlanTier)
    | NoPlan(tenant: string)

  /** The outcome of a check; the recording calls answer Ok as well. */
  type Reply = Result<(), EntitlementError>

  datatype TenantUsage = TenantUsage(runsToday: nat, tokensThisMonth: nat, dayResetMs: nat, monthResetMs: nat)

  const NO_USAGE := TenantUsage(0, 0, 0, 0)
  const DAY_MS: nat := 86_400_000
  const MONTH_MS: nat := 30 * DAY_MS
  const U32_COUNT: nat := 0x1_0000_0000
  const U64_MAX: nat := 0xFFFF_FFFF_FFFF_FFFF

  function SaturatingSub(a: nat, b: nat): nat {
    if a < b then 0 else a - b
  }

  function SaturatingAdd(a: nat, b: nat): nat {
    if a + b > U64_MAX then U64_MAX else a + b
  }

  function MaybeResetDaily(u: TenantUsage, now: nat): TenantUsage {
    if SaturatingSub(now, u.dayResetMs) >= DAY_MS then u.(runsToday := 0, dayResetMs := now) else u
  }

  function MaybeResetMonthly(u: TenantUsage, now: nat): TenantUsage {
    if SaturatingSub(now, u.monthResetMs) >= MONTH_MS then u.(tokensThisMonth := 0, monthResetMs := now) else u
  }

  // ----- the sequential meaning of the calls

  datatype Service = Service(plans: map<string, PlanTier>, usage: map<string, TenantUsage>)

  datatype Op =
    | SetPlan(tier: PlanTier)
    | CheckRun
    | RecordRun
    | CheckTokens(additional: nat)
    | RecordTokens(tokens: nat)

  /** One call: for which tenant, at which clock reading. */
  datatype Call = Call(tenant: string, now: nat, op: Op)

  const FRESH := Service(map[], map[])

  function UsageOf(s: Service, tenant: string): TenantUsage {
    if tenant in s.usage then s.usage[tenant] else NO_USAGE
  }

  function PutUsage(s: Service, tenant: string, u: TenantUsage): Service {
    s.(usage := s.usage[tenant := u])
  }

  function Apply(s: Service, c: Call): (Service, Reply) {
    match c.op
    case SetPlan(tier) => (s.(plans := s.plans[c.tenant := tier]), Ok(()))
    case CheckRun =>
      if c.tenant !in s.plans then (s, Err(NoPlan(c.tenant)))
      else
        var tier := s.plans[c.tenant];
        var limit := ForTier(tier).maxRunsPerDay;
        if limit == 0 then (s, Ok(()))
        else
          var u := MaybeResetDaily(UsageOf(s, c.tenant), c.now);
          (PutUsage(s, c.tenant, u),
           if u.runsToday >= limit then Err(LimitExceeded(RunsPerDay, u.runsToday, limit, tier)) else Ok(()))
    case RecordRun =>
      var u := MaybeResetDaily(UsageOf(s, c.tenant), c.now);
      (PutUsage(s, c.tenant, u.(runsToday := (u.runsToday + 1) % U32_COUNT)), Ok(()))
    case CheckTokens(additional) =>
      if c.tenant !in s.plans then (s, Err(NoPlan(c.tenant)))
      else
        var tier := s.plans[c.tenant];
        var limit := ForTier(tier).maxTokensPerMonth;
        if limit == 0 then (s, Ok(()))
        else
          var u := MaybeResetMonthly(UsageOf(s, c.tenant), c.now);
          (PutUsage(s, c.tenant, u),
           if SaturatingAdd(u.tokensThisMonth, additional) > limit
           then Err(LimitExceeded(TokensPerMonth, u.tokensThisMonth, limit, tier)) else Ok(()))
    case RecordTokens(tokens) =>
      var u := MaybeResetMonthly(UsageOf(s, c.tenant), c.now);
      (PutUsage(s, c.tenant, u.(tokensThisMonth := SaturatingAdd(u.tokensThisMonth, tokens))), Ok(()))
  }

  /** The service after a trace of calls. */
  function After(trace: seq<Call>): Service {
    if trace == [] then FRESH else Apply(After(Front(trace)), Last(trace)).0
  }

  // ----- the service object

  class EntitlementService {
    var plans: map<string, PlanTier>
    var usage: map<string, TenantUsage>

    ghost function State(): Service reads this {
      Service(plans, usage)
    }

    constructor ()
      ensures State() == FRESH
    {
      plans := map[];
      usage := map[];
    }

    method SetPlan(tenant: string, tier: PlanTier)
      modifies this`plans
      ensures State() == Apply(old(State()), Call(tenant, 0, Op.SetPlan(tier))).0
    {
      plans := plans[tenant := tier];
    }

    /** The counters of a tenant, all zero when it has none yet. */
    method Counters(tenant: string) returns (u: TenantUsage)
      ensures u == UsageOf(State(), tenant)
    {
      if tenant in usage {
        u := usage[tenant];
      } else {
        u := NO_USAGE;
      }
    }

    method CheckRunLimit(tenant: string, now: nat) returns (reply: Reply)
      modifies this`usage
      ensures (State(), reply) == Apply(old(State()), Call(tenant, now, CheckRun))
    {
      if tenant !in plans {
        return Err(NoPlan(tenant));
      }
      var limits := ForTier(plans[tenant]);
      if limits.maxRunsPerDay == 0 {
        return Ok(());
      }
      var u := Counters(tenant);
      if SaturatingSub(now, u.dayResetMs) >= DAY_MS {
        u := u.(runsToday := 0, dayResetMs := now);
      }
      usage := usage[tenant := u];
      if u.runsToday >= limits.maxRunsPerDay {
        return Err(LimitExceeded(RunsPerDay, u.runsToday, limits.maxRunsPerDay, plans[tenant]));
      }
      return Ok(());
    }

    method CheckTokenLimit(tenant: string, additional: nat, now: nat) returns (reply: Reply)
      modifies this`usage
      ensures (State(), reply) == Apply(old(State()), Call(tenant, now, CheckTokens(additional)))
    {
      if tenant !in plans {
        return Err(NoPlan(tenant));
      }
      var limits := ForTier(plans[tenant]);
      if limits.maxTokensPerMonth == 0 {
        return Ok(());
      }
      var u := Counters(tenant);
      if SaturatingSub(now, u.monthResetMs) >= MONTH_MS {
        u := u.(tokensThisMonth := 0, monthResetMs := now);
      }
      usage := usage[tenant := u];
      var projected := SaturatingAdd(u.tokensThisMonth, additional);
      if projected > limits.maxTokensPerMonth {
        return Err(LimitExceeded(TokensPerMonth, u.tokensThisMonth, limits.maxTokensPerMonth, plans[tenant]));
      }
      return Ok(());
    }

    method RecordRun(tenant: string, now: nat)
      modifies this`usage
      ensures State() == Apply(old(State()), Call(tenant, now, Op.RecordRun)).0
    {
      var u := Counters(tenant);
      if SaturatingSub(now, u.dayResetMs) >= DAY_MS {
        u := u.(runsToday := 0, dayResetMs := now);
      }
      usage := usage[tenant := u.(runsToday := (u.runsToday + 1) % U32_COUNT)];
    }

    method RecordTokens(tenant: string, tokens: nat, now: nat)
      modifies this`usage
      ensures State() == Apply(old(State()), Call(tenant, now, Op.RecordTokens(tokens))).0
    {
      var u := Counters(tenant);
      if SaturatingSub(now, u.monthResetMs) >= MONTH_MS {
        u := u.(tokensThisMonth := 0, monthResetMs := now);
      }
      usage := usage[tenant := u.(tokensThisMonth := SaturatingAdd(u.tokensThisMonth, tokens))];
    }
  }

  // ----- what a trace charges, and when it may

  ghost predicate ClockOk(trace: seq<Call>) {
    forall i, j :: 0 <= i <= j < |trace| ==> trace[i].now <= trace[j].now
  }

  function Now(trace: seq<Call>): nat {
    if trace == [] then 0 else Last(trace).now
  }

  /** The plan limits in force for a tenant; none counts as unlimited. */
  function LimitsIn(s: Service, tenant: string): PlanLimits {
    if tenant in s.plans then ForTier(s.plans[tenant]) else PlanLimits(0, 0)
  }

  /** What one call records as runs, and as tokens, of a tenant. */
  function RunsIn(c: Call, tenant: string): seq<Charge> {
    if c.tenant == tenant && c.op.RecordRun? then [Charge(c.now, 1)] else []
  }

  function TokensIn(c: Call, tenant: string): seq<Charge> {
    if c.tenant == tenant && c.op.RecordTokens? then [Charge(c.now, c.op.tokens)] else []
  }

  function RunCharges(trace: seq<Call>, tenant: string): seq<Charge> {
    if trace == [] then [] else RunCharges(Front(trace), tenant) + RunsIn(Last(trace), tenant)
  }

  function TokenCharges(trace: seq<Call>, tenant: string): seq<Charge> {
    if trace == [] then [] else TokenCharges(Front(trace), tenant) + TokensIn(Last(trace), tenant)
  }

  /** How many runs are cleared after a call, given how many were before it:
      a recorded run uses the clearance up; a run check that answers Ok under
      a plan whose daily limit is at most `limit` (and not "unlimited") clears
      one run. */
  function RunsClearedBy(s: Service, c: Call, tenant: string, limit: nat, before: nat): nat {
    if c.tenant != tenant then before
    else if c.op.RecordRun? then 0
    else if c.op.CheckRun? && Apply(s, c).1.Ok? && 0 < LimitsIn(s, tenant).maxRunsPerDay <= limit then 1
    else before
  }

  function TokensClearedBy(s: Service, c: Call, tenant: string, limit: nat, before: nat): nat {
    if c.tenant != tenant then before
    else if c.op.RecordTokens? then 0
    else if c.op.CheckTokens? && Apply(s, c).1.Ok? && 0 < LimitsIn(s, tenant).maxTokensPerMonth <= limit
    then c.op.additional
    else before
  }

  function RunsCleared(trace: seq<Call>, tenant: string, limit: nat): nat {
    if trace == [] then 0
    else RunsClearedBy(After(Front(trace)), Last(trace), tenant, limit, RunsCleared(Front(trace), tenant, limit))
  }

  function TokensCleared(trace: seq<Call>, tenant: string, limit: nat): nat {
    if trace == [] then 0
    else TokensClearedBy(After(Front(trace)), Last(trace), tenant, limit, TokensCleared(Front(trace), tenant, limit))
  }

  /** Every recorded run of `tenant` was cleared by a check of its own. */
  ghost predicate RunsChecked(trace: seq<Call>, tenant: string, limit: nat) {
    trace != [] ==>
      && RunsChecked(Front(trace), tenant, limit)
      && (RunsIn(Last(trace), tenant) != [] ==> 1 <= RunsCleared(Front(trace), tenant, limit))
  }

  /** No call for `tenant` records more tokens than its check asked for. */
  ghost predicate TokensChecked(trace: seq<Call>, tenant: string, limit: nat) {
    trace != [] ==>
      && TokensChecked(Front(trace), tenant, limit)
      && (TokensIn(Last(trace), tenant) != [] ==> Last(trace).op.tokens <= TokensCleared(Front(trace), tenant, limit))
  }

  // ----- the bound

  /** What a call means to the daily meter of a tenant. */
  function RunOp(s: Service, c: Call, tenant: string, limit: nat): MeterOp {
    var max := LimitsIn(s, tenant).maxRunsPerDay;
    if c.tenant == tenant && c.op.RecordRun? then Spend(1)
    else if c.tenant == tenant && c.op.CheckRun? && max > 0 then
      Check(if MaybeResetDaily(UsageOf(s, tenant), c.now).runsToday < max <= limit then 1 else -1)
    else Idle
  }

  lemma RunMeter(k: Ledger, s: Service, c: Call, tenant: string, limit: nat)
    requires k.start <= c.now && (RunsIn(c, tenant) != [] ==> k.used + 1 < U32_COUNT)
    requires k.start == UsageOf(s, tenant).dayResetMs && k.used == UsageOf(s, tenant).runsToday
    ensures var l := Touch(k, c.now, DAY_MS, RunOp(s, c, tenant, limit)); var s' := Apply(s, c).0;
      && l.start == UsageOf(s', tenant).dayResetMs && l.used == UsageOf(s', tenant).runsToday
      && l.cleared == RunsClearedBy(s, c, tenant, limit, k.cleared)
  {
  }

  /** One call on the daily meter of a tenant, with its history. */
  lemma RunStep(k: Ledger, s: Service, now: nat, c: Call, tenant: string, limit: nat) returns (l: Ledger)
    requires Valid(k, now, DAY_MS, limit) && now <= c.now && limit < U32_COUNT
    requires k.start == UsageOf(s, tenant).dayResetMs && k.used == UsageOf(s, tenant).runsToday
    requires RunsIn(c, tenant) != [] ==> 1 <= k.cleared
    ensures Valid(l, c.now, DAY_MS, limit)
    ensures l.closed + l.open == k.closed + k.open + RunsIn(c, tenant)
    ensures var s' := Apply(s, c).0;
      l.start == UsageOf(s', tenant).dayResetMs && l.used == UsageOf(s', tenant).runsToday
    ensures l.cleared == RunsClearedBy(s, c, tenant, limit, k.cleared)
  {
    var op := RunOp(s, c, tenant, limit);
    TouchKeepsValid(k, now, c.now, DAY_MS, limit, op);
    RunMeter(k, s, c, tenant, limit);
    l := Touch(k, c.now, DAY_MS, op);
  }

  lemma {:induction false} RunLedger(trace: seq<Call>, tenant: string, limit: nat) returns (l: Ledger)
    requires ClockOk(trace) && RunsChecked(trace, tenant, limit) && limit < U32_COUNT
    ensures Valid(l, Now(trace), DAY_MS, limit)
    ensures l.closed + l.open == RunCharges(trace, tenant)
    ensures l.start == UsageOf(After(trace), tenant).dayResetMs
    ensures l.used == UsageOf(After(trace), tenant).runsToday
    ensures l.cleared == RunsCleared(trace, tenant, limit)
  {
    if trace == [] {
      l := Ledger(0, 0, [], [], 0);
    } else {
      var k := RunLedger(Front(trace), tenant, limit);
      l := RunStep(k, After(Front(trace)), Now(Front(trace)), Last(trace), tenant, limit);
    }
  }

  /**
    With a clock that never goes back, and every run recorded only after a
    check of its own was accepted under a daily limit of at most `limit`, no
    stretch of one day sees more than twice that limit.
   */
  lemma RunsPerDayBound(trace: seq<Call>, tenant: string, limit: nat, from: int, to: int)
    requires ClockOk(trace) && RunsChecked(trace, tenant, limit) && limit < U32_COUNT
    requires to <= from + 86_400_000
    ensures SumIn(RunCharges(trace, tenant), from, to) <= 2 * limit
  {
    var l := RunLedger(trace, tenant, limit);
    TwiceTheLimit(l, Now(trace), DAY_MS, limit, from, to);
  }

  /** The runs recorded after the first k calls. */
  function RunsSince(trace: seq<Call>, k: nat, tenant: string): seq<Charge>
    requires k <= |trace|
  {
    if k == |trace| then [] else RunsSince(Front(trace), k, tenant) + RunsIn(Last(trace), tenant)
  }

  /** One call either leaves the day's window open, and counts its run there,
      or opens a later one. */
  lemma DayStep(s: Service, c: Call, tenant: string)
    requires UsageOf(s, tenant).dayResetMs <= c.now
    requires RunsIn(c, tenant) != [] ==> UsageOf(s, tenant).runsToday + 1 < U32_COUNT
    ensures var u, v := UsageOf(s, tenant), UsageOf(Apply(s, c).0, tenant);
      || u.dayResetMs < v.dayResetMs
      || (u.dayResetMs == v.dayResetMs && v.runsToday == u.runsToday + |RunsIn(c, tenant)|)
  {
  }

  /**
    As long as the window does not roll over, the checks do hold usage to the
    limit: the runs recorded since the first k calls, over any stretch of
    time, are at most one daily limit.
   */
  lemma {:induction false} RunsWithinOneWindow(trace: seq<Call>, k: nat, tenant: string, limit: nat, from: int, to: int)
    requires ClockOk(trace) && RunsChecked(trace, tenant, limit) && limit < U32_COUNT && k <= |trace|
    ensures var start, now := UsageOf(After(trace[..k]), tenant), UsageOf(After(trace), tenant);
      && start.dayResetMs <= now.dayResetMs
      && (start.dayResetMs == now.dayResetMs ==>
            SumIn(RunsSince(trace, k, tenant), from, to) <= now.runsToday <= limit)
  {
    var l := RunLedger(trace, tenant, limit);
    if k == |trace| {
      assert trace[..k] == trace;
    } else {
      var front, c := Front(trace), Last(trace);
      RunsWithinOneWindow(front, k, tenant, limit, from, to);
      assert front[..k] == trace[..k];
      var before := RunLedger(front, tenant, limit);
      DayStep(After(front), c, tenant);
      SumInConcat(RunsSince(front, k, tenant), RunsIn(c, tenant), from, to);
      assert SumIn([], from, to) == 0 && SumIn([Charge(c.now, 1)], from, to) <= 1;
    }
  }

  /** What a call means to the monthly meter of a tenant. */
  function TokenOp(s: Service, c: Call, tenant: string, limit: nat): MeterOp {
    var max := LimitsIn(s, tenant).maxTokensPerMonth;
    if c.tenant == tenant && c.op.RecordTokens? then Spend(c.op.tokens)
    else if c.tenant == tenant && c.op.CheckTokens? && max > 0 then
      Check(if MaybeResetMonthly(UsageOf(s, tenant), c.now).tokensThisMonth + c.op.additional <= max <= limit
            then c.op.additional else -1)
    else Idle
  }

  lemma TokenMeter(k: Ledger, s: Service, c: Call, tenant: string, limit: nat)
    requires k.start <= c.now && (TokensIn(c, tenant) != [] ==> k.used + c.op.tokens <= U64_MAX)
    requires k.start == UsageOf(s, tenant).monthResetMs && k.used == UsageOf(s, tenant).tokensThisMonth
    ensures var l := Touch(k, c.now, MONTH_MS, TokenOp(s, c, tenant, limit)); var s' := Apply(s, c).0;
      && l.start == UsageOf(s', tenant).monthResetMs && l.used == UsageOf(s', tenant).tokensThisMonth
      && l.cleared == TokensClearedBy(s, c, tenant, limit, k.cleared)
  {
  }

  lemma TokenStep(k: Ledger, s: Service, now: nat, c: Call, tenant: string, limit: nat) returns (l: Ledger)
    requires Valid(k, now, MONTH_MS, limit) && now <= c.now && limit <= U64_MAX
    requires k.start == UsageOf(s, tenant).monthResetMs && k.used == UsageOf(s, tenant).tokensThisMonth
    requires TokensIn(c, tenant) != [] ==> c.op.tokens <= k.cleared
    ensures Valid(l, c.now, MONTH_MS, limit)
    ensures l.closed + l.open == k.closed + k.open + TokensIn(c, tenant)
    ensures var s' := Apply(s, c).0;
      l.start == UsageOf(s', tenant).monthResetMs && l.used == UsageOf(s', tenant).tokensThisMonth
    ensures l.cleared == TokensClearedBy(s, c, tenant, limit, k.cleared)
  {
    var op := TokenOp(s, c, tenant, limit);
    TouchKeepsValid(k, now, c.now, MONTH_MS, limit, op);
    TokenMeter(k, s, c, tenant, limit);
    l := Touch(k, c.now, MONTH_MS, op);
  }

  lemma {:induction false} TokenLedger(trace: seq<Call>, tenant: string, limit: nat) returns (l: Ledger)
    requires ClockOk(trace) && TokensChecked(trace, tenant, limit) && limit <= U64_MAX
    ensures Valid(l, Now(trace), MONTH_MS, limit)
    ensures l.closed + l.open == TokenCharges(trace, tenant)
    ensures l.start == UsageOf(After(trace), tenant).monthResetMs
    ensures l.used == UsageOf(After(trace), tenant).tokensThisMonth
    ensures l.cleared == TokensCleared(trace, tenant, limit)
  {
    if trace == [] {
      l := Ledger(0, 0, [], [], 0);
    } else {
      var k := TokenLedger(Front(trace), tenant, limit);
      l := TokenStep(k, After(Front(trace)), Now(Front(trace)), Last(trace), tenant, limit);
    }
  }

  /** The same for tokens and any stretch of one thirty-day month. */
  lemma TokensPerMonthBound(trace: seq<Call>, tenant: string, limit: nat, from: int, to: int)
    requires ClockOk(trace) && TokensChecked(trace, tenant, limit) && limit <= U64_MAX
    requires to <= from + 30 * 86_400_000
    ensures SumIn(TokenCharges(trace, tenant), from, to) <= 2 * limit
  {
    var l := TokenLedger(trace, tenant, limit);
    TwiceTheLimit(l, Now(trace), MONTH_MS, limit, from, to);
  }

  // ----- the factor two is reached

  /** One more call. */
  lemma OneMore(p: seq<Call>, c: Call, tenant: string, limit: nat)
    requires ClockOk(p) && Now(p) <= c.now
    ensures var q := p + [c];
      && Front(q) == p && Last(q) == c && ClockOk(q) && Now(q) == c.now
      && After(q) == Apply(After(p), c).0
      && RunCharges(q, tenant) == RunCharges(p, tenant) + RunsIn(c, tenant)
      && TokenCharges(q, tenant) == TokenCharges(p, tenant) + TokensIn(c, tenant)
      && RunsCleared(q, tenant, limit) == RunsClearedBy(After(p), c, tenant, limit, RunsCleared(p, tenant, limit))
      && TokensCleared(q, tenant, limit) == TokensClearedBy(After(p), c, tenant, limit, TokensCleared(p, tenant, limit))
  {
    var q := p + [c];
    assert Front(q) == p;
    forall i, j | 0 <= i <= j < |q| ensures q[i].now <= q[j].now {
      if j == |p| && i < |p| {
        assert p[i].now <= p[|p| - 1].now;
      }
    }
  }

  /** Append `n` checked runs, all at one clock reading. */
  function CheckedRuns(trace: seq<Call>, tenant: string, now: nat, n: nat): seq<Call> {
    if n == 0 then trace
    else CheckedRuns(trace, tenant, now, n - 1) + [Call(tenant, now, CheckRun), Call(tenant, now, RecordRun)]
  }

  /** One more checked run is accepted while the counter is below the limit. */
  lemma OneCheckedRun(p: seq<Call>, tenant: string, now: nat, limit: nat)
    requires ClockOk(p) && RunsChecked(p, tenant, limit) && Now(p) <= now
    requires LimitsIn(After(p), tenant).maxRunsPerDay == limit < U32_COUNT
    requires MaybeResetDaily(UsageOf(After(p), tenant), now).runsToday < limit
    ensures var t := p + [Call(tenant, now, CheckRun), Call(tenant, now, RecordRun)];
      && ClockOk(t) && RunsChecked(t, tenant, limit) && Now(t) == now
      && After(t).plans == After(p).plans
      && RunCharges(t, tenant) == RunCharges(p, tenant) + [Charge(now, 1)]
      && UsageOf(After(t), tenant) ==
         (var u := MaybeResetDaily(UsageOf(After(p), tenant), now); u.(runsToday := u.runsToday + 1))
  {
    var c, r := Call(tenant, now, CheckRun), Call(tenant, now, RecordRun);
    CheckClears(p, tenant, now, limit);
    RecordCounts(p + [c], tenant, now, limit);
    assert p + [c, r] == p + [c] + [r];
  }

  /** A check that finds the counter below the limit clears one run. */
  lemma CheckClears(p: seq<Call>, tenant: string, now: nat, limit: nat)
    requires ClockOk(p) && RunsChecked(p, tenant, limit) && Now(p) <= now
    requires LimitsIn(After(p), tenant).maxRunsPerDay == limit < U32_COUNT
    requires MaybeResetDaily(UsageOf(After(p), tenant), now).runsToday < limit
    ensures var q := p + [Call(tenant, now, CheckRun)];
      && ClockOk(q) && RunsChecked(q, tenant, limit) && Now(q) == now && RunsCleared(q, tenant, limit) == 1
      && After(q).plans == After(p).plans
      && UsageOf(After(q), tenant) == MaybeResetDaily(UsageOf(After(p), tenant), now)
      && RunCharges(q, tenant) == RunCharges(p, tenant)
  {
    var c := Call(tenant, now, CheckRun);
    OneMore(p, c, tenant, limit);
    assert RunsIn(c, tenant) == [] && RunCharges(p, tenant) + [] == RunCharges(p, tenant);
  }

  /** A cleared run, recorded in a window that is open. */
  lemma RecordCounts(q: seq<Call>, tenant: string, now: nat, limit: nat)
    requires ClockOk(q) && RunsChecked(q, tenant, limit) && Now(q) == now && RunsCleared(q, tenant, limit) == 1
    requires MaybeResetDaily(UsageOf(After(q), tenant), now) == UsageOf(After(q), tenant)
    requires UsageOf(After(q), tenant).runsToday + 1 < U32_COUNT
    ensures var t := q + [Call(tenant, now, RecordRun)]; var u := UsageOf(After(q), tenant);
      && ClockOk(t) && RunsChecked(t, tenant, limit) && Now(t) == now
      && After(t).plans == After(q).plans
      && RunCharges(t, tenant) == RunCharges(q, tenant) + [Charge(now, 1)]
      && UsageOf(After(t), tenant) == u.(runsToday := u.runsToday + 1)
  {
    OneMore(q, Call(tenant, now, RecordRun), tenant, limit);
  }

  /** `t` continues `trace` with `n` more recorded runs, all of them checked
      and dated `now`, and nothing else that counts. */
  ghost predicate Grown(trace: seq<Call>, t: seq<Call>, tenant: string, now: nat, n: nat, limit: nat, a: int, b: int) {
    && ClockOk(t) && RunsChecked(t, tenant, limit) && Now(t) <= now
    && After(t).plans == After(trace).plans
    && MaybeResetDaily(UsageOf(After(t), tenant), now) ==
       (var u := MaybeResetDaily(UsageOf(After(trace), tenant), now); u.(runsToday := u.runsToday + n))
    && (n > 0 ==> UsageOf(After(t), tenant) == MaybeResetDaily(UsageOf(After(t), tenant), now))
    && SumIn(RunCharges(t, tenant), a, b) == SumIn(RunCharges(trace, tenant), a, b) + n
  }

  lemma GrowOne(trace: seq<Call>, p: seq<Call>, tenant: string, now: nat, n: nat, limit: nat, a: int, b: int)
    requires Grown(trace, p, tenant, now, n, limit, a, b) && a <= now < b
    requires LimitsIn(After(trace), tenant).maxRunsPerDay == limit < U32_COUNT
    requires MaybeResetDaily(UsageOf(After(trace), tenant), now).runsToday + n < limit
    ensures Grown(trace, p + [Call(tenant, now, CheckRun), Call(tenant, now, RecordRun)], tenant, now, n + 1, limit, a, b)
  {
    OneCheckedRun(p, tenant, now, limit);
    SumInConcat(RunCharges(p, tenant), [Charge(now, 1)], a, b);
    assert SumIn([Charge(now, 1)], a, b) == SumIn([], a, b) + 1;
  }

  lemma {:induction false} CheckedRunsPass(trace: seq<Call>, tenant: string, now: nat, n: nat, limit: nat, a: int, b: int)
    requires ClockOk(trace) && RunsChecked(trace, tenant, limit) && Now(trace) <= now
    requires LimitsIn(After(trace), tenant).maxRunsPerDay == limit < U32_COUNT
    requires MaybeResetDaily(UsageOf(After(trace), tenant), now).runsToday + n <= limit
    requires a <= now < b
    ensures Grown(trace, CheckedRuns(trace, tenant, now, n), tenant, now, n, limit, a, b)
  {
    if n == 0 {
      assert CheckedRuns(trace, tenant, now, n) == trace;
    } else {
      CheckedRunsPass(trace, tenant, now, n - 1, limit, a, b);
      GrowOne(trace, CheckedRuns(trace, tenant, now, n - 1), tenant, now, n - 1, limit, a, b);
    }
  }

  /**
    The bound cannot be lowered: under every limited plan there is a trace
    that respects the checks and records twice the daily limit within two
    milliseconds, around the instant the window rolls over.
   */
  lemma RunsPerDayBoundIsReached(tenant: string, tier: PlanTier) returns (trace: seq<Call>, from: int)
    requires !tier.Enterprise?
    ensures ClockOk(trace) && RunsChecked(trace, tenant, ForTier(tier).maxRunsPerDay)
    ensures SumIn(RunCharges(trace, tenant), from, from + 2) == 2 * ForTier(tier).maxRunsPerDay
  {
    var limit := ForTier(tier).maxRunsPerDay;
    var planned := [Call(tenant, DAY_MS, Op.SetPlan(tier))];
    var opening := planned + [Call(tenant, DAY_MS, CheckRun)];
    assert Front(opening) == planned && Front(planned) == [];
    assert After([]) == FRESH;
    assert After(planned) == Service(map[tenant := tier], map[]);
    assert UsageOf(After(opening), tenant) == TenantUsage(0, 0, DAY_MS, 0);
    assert RunCharges([], tenant) == [] && RunCharges(planned, tenant) == [];
    from := 2 * DAY_MS - 1;
    var first := CheckedRuns(opening, tenant, from, limit);
    CheckedRunsPass(opening, tenant, from, limit, limit, from, from + 2);
    trace := CheckedRuns(first, tenant, from + 1, limit);
    CheckedRunsPass(first, tenant, from + 1, limit, limit, from, from + 2);
  }

  /** A checked recording of tokens, as many as the whole limit. */
  function CheckedTokens(trace: seq<Call>, tenant: string, now: nat, n: nat): seq<Call> {
    trace + [Call(tenant, now, CheckTokens(n)), Call(tenant, now, Op.RecordTokens(n))]
  }

  lemma CheckedTokensPass(p: seq<Call>, tenant: string, now: nat, limit: nat)
    requires ClockOk(p) && TokensChecked(p, tenant, limit) && Now(p) <= now
    requires 0 < LimitsIn(After(p), tenant).maxTokensPerMonth == limit <= U64_MAX
    requires MaybeResetMonthly(UsageOf(After(p), tenant), now).tokensThisMonth == 0
    ensures var t := CheckedTokens(p, tenant, now, limit);
      && ClockOk(t) && TokensChecked(t, tenant, limit) && Now(t) == now
      && After(t).plans == After(p).plans
      && UsageOf(After(t), tenant).monthResetMs == MaybeResetMonthly(UsageOf(After(p), tenant), now).monthResetMs
      && TokenCharges(t, tenant) == TokenCharges(p, tenant) + [Charge(now, limit)]
  {
    var c, r := Call(tenant, now, CheckTokens(limit)), Call(tenant, now, Op.RecordTokens(limit));
    var q := p + [c];
    OneMore(p, c, tenant, limit);
    OneMore(q, r, tenant, limit);
    assert CheckedTokens(p, tenant, now, limit) == q + [r];
    assert TokenCharges(p, tenant) + [] == TokenCharges(p, tenant);
    var u := MaybeResetMonthly(UsageOf(After(p), tenant), now);
    assert UsageOf(After(q), tenant) == u && MaybeResetMonthly(u, now) == u;
    assert TokensChecked(q, tenant, limit) && TokensCleared(q, tenant, limit) == limit;
  }

  /** Twice the monthly limit within two milliseconds, likewise. */
  lemma TokensPerMonthBoundIsReached(tenant: string, tier: PlanTier) returns (trace: seq<Call>, from: int)
    requires !tier.Enterprise?
    ensures ClockOk(trace) && TokensChecked(trace, tenant, ForTier(tier).maxTokensPerMonth)
    ensures SumIn(TokenCharges(trace, tenant), from, from + 2) == 2 * ForTier(tier).maxTokensPerMonth
  {
    var limit := ForTier(tier).maxTokensPerMonth;
    var planned := [Call(tenant, MONTH_MS, Op.SetPlan(tier))];
    var opening := planned + [Call(tenant, MONTH_MS, CheckTokens(0))];
    OpeningMonth(tenant, tier);
    from := 2 * MONTH_MS - 1;
    var first := CheckedTokens(opening, tenant, from, limit);
    CheckedTokensPass(opening, tenant, from, limit);
    trace := CheckedTokens(first, tenant, from + 1, limit);
    CheckedTokensPass(first, tenant, from + 1, limit);
    assert TokenCharges(trace, tenant) == [] + [Charge(from, limit)] + [Charge(from + 1, limit)];
    SumOfTwo(Charge(from, limit), Charge(from + 1, limit), from, from + 2);
  }

  lemma SumOfTwo(c: Charge, d: Charge, from: int, to: int)
    requires from <= c.at < to && from <= d.at < to
    ensures SumIn([] + [c] + [d], from, to) == c.amount + d.amount
  {
    var one, two := [] + [c], [] + [c] + [d];
    assert two[..1] == one && one[..0] == [] && SumIn([], from, to) == 0;
  }

  /** The month's window is opened by a first check. */
  lemma OpeningMonth(tenant: string, tier: PlanTier)
    requires !tier.Enterprise?
    ensures var t := [Call(tenant, MONTH_MS, Op.SetPlan(tier))] + [Call(tenant, MONTH_MS, CheckTokens(0))];
      && ClockOk(t) && TokensChecked(t, tenant, ForTier(tier).maxTokensPerMonth) && Now(t) == MONTH_MS
      && LimitsIn(After(t), tenant) == ForTier(tier)
      && UsageOf(After(t), tenant) == TenantUsage(0, 0, 0, MONTH_MS)
      && TokenCharges(t, tenant) == []
  {
    var planned := [Call(tenant, MONTH_MS, Op.SetPlan(tier))];
    var opening := planned + [Call(tenant, MONTH_MS, CheckTokens(0))];
    assert Front(opening) == planned && Front(planned) == [];
    assert After([]) == FRESH;
    assert After(planned) == Service(map[tenant := tier], map[]);
    assert TokenCharges([], tenant) == [] && TokenCharges(planned, tenant) == [];
  }

  // ----- what a check answers, by the calls made

  predicate SetsPlan(c: Call, tenant: string) {
    c.tenant == tenant && c.op.SetPlan?
  }

  /** The tier of the last SetPlan for a tenant. */
  function PlanOf(trace: seq<Call>, tenant: string): Option<PlanTier> {
    if trace == [] then None
    else if SetsPlan(Last(trace), tenant) then Some(Last(trace).op.tier)
    else PlanOf(Front(trace), tenant)
  }

  lemma {:induction false} NoPlanIff(trace: seq<Call>, tenant: string)
    ensures PlanOf(trace, tenant) == None <==> forall c :: c in trace ==> !SetsPlan(c, tenant)
  {
    if trace != [] {
      NoPlanIff(Front(trace), tenant);
      assert trace == Front(trace) + [Last(trace)];
    }
  }

  lemma {:induction false} PlanIsLastSet(trace: seq<Call>, tenant: string)
    ensures tenant in After(trace).plans <==> PlanOf(trace, tenant).Some?
    ensures tenant in After(trace).plans ==> After(trace).plans[tenant] == PlanOf(trace, tenant).value
  {
    if trace != [] {
      PlanIsLastSet(Front(trace), tenant);
    }
  }

  /** The limits by the last SetPlan; without one nothing is limited. */
  function LimitsBy(trace: seq<Call>, tenant: string): PlanLimits {
    if PlanOf(trace, tenant).Some? then ForTier(PlanOf(trace, tenant).value) else PlanLimits(0, 0)
  }

  /** A call that looks at a tenant's day: a recorded run, or a check under a
      plan that limits runs; and likewise for its month. */
  predicate LooksAtDay(limits: PlanLimits, c: Call, tenant: string) {
    c.tenant == tenant && (c.op.RecordRun? || (c.op.CheckRun? && limits.maxRunsPerDay > 0))
  }

  predicate LooksAtMonth(limits: PlanLimits, c: Call, tenant: string) {
    c.tenant == tenant && (c.op.RecordTokens? || (c.op.CheckTokens? && limits.maxTokensPerMonth > 0))
  }

  /** When the current day was opened: by the first look at it that came at
      least a day after the one before was opened. */
  function DayOpened(trace: seq<Call>, tenant: string): nat {
    if trace == [] then 0
    else
      var before := DayOpened(Front(trace), tenant);
      if LooksAtDay(LimitsBy(Front(trace), tenant), Last(trace), tenant) && Last(trace).now >= before + DAY_MS then Last(trace).now else before
  }

  function MonthOpened(trace: seq<Call>, tenant: string): nat {
    if trace == [] then 0
    else
      var before := MonthOpened(Front(trace), tenant);
      if LooksAtMonth(LimitsBy(Front(trace), tenant), Last(trace), tenant) && Last(trace).now >= before + MONTH_MS
      then Last(trace).now else before
  }

  /** The runs recorded since, and the tokens. */
  function RunsInDay(trace: seq<Call>, tenant: string): nat {
    if trace == [] then 0
    else
      (if DayOpened(trace, tenant) != DayOpened(Front(trace), tenant) then 0 else RunsInDay(Front(trace), tenant)) +
      (if Last(trace).tenant == tenant && Last(trace).op.RecordRun? then 1 else 0)
  }

  function TokensInMonth(trace: seq<Call>, tenant: string): nat {
    if trace == [] then 0
    else
      (if MonthOpened(trace, tenant) != MonthOpened(Front(trace), tenant) then 0 else TokensInMonth(Front(trace), tenant)) +
      (if Last(trace).tenant == tenant && Last(trace).op.RecordTokens? then Last(trace).op.tokens else 0)
  }

  /** What one call does to the day of a tenant, and to its month. */
  lemma DayAfter(s: Service, c: Call, tenant: string)
    requires UsageOf(s, tenant).runsToday < U32_COUNT
    ensures var u, v := UsageOf(s, tenant), UsageOf(Apply(s, c).0, tenant);
      && v.dayResetMs ==
         (if LooksAtDay(LimitsIn(s, tenant), c, tenant) && c.now >= u.dayResetMs + DAY_MS then c.now else u.dayResetMs)
      && v.runsToday ==
         ((if v.dayResetMs != u.dayResetMs then 0 else u.runsToday) + |RunsIn(c, tenant)|) % U32_COUNT
  {
  }

  lemma MonthAfter(s: Service, c: Call, tenant: string)
    requires UsageOf(s, tenant).tokensThisMonth <= U64_MAX
    ensures var u, v := UsageOf(s, tenant), UsageOf(Apply(s, c).0, tenant);
      && v.monthResetMs ==
         (if LooksAtMonth(LimitsIn(s, tenant), c, tenant) && c.now >= u.monthResetMs + MONTH_MS
          then c.now else u.monthResetMs)
      && v.tokensThisMonth ==
         Min((if v.monthResetMs != u.monthResetMs then 0 else u.tokensThisMonth) +
             (if c.tenant == tenant && c.op.RecordTokens? then c.op.tokens else 0), U64_MAX)
  {
  }

  lemma {:induction false} DayCounter(trace: seq<Call>, tenant: string)
    ensures UsageOf(After(trace), tenant).dayResetMs == DayOpened(trace, tenant)
    ensures UsageOf(After(trace), tenant).runsToday == RunsInDay(trace, tenant) % U32_COUNT
  {
    if trace != [] {
      var front, c := Front(trace), Last(trace);
      DayCounter(front, tenant);
      PlanIsLastSet(front, tenant);
      assert LimitsIn(After(front), tenant) == LimitsBy(front, tenant);
      DayAfter(After(front), c, tenant);
      var rolled := DayOpened(trace, tenant) != DayOpened(front, tenant);
      CountUp(if rolled then 0 else RunsInDay(front, tenant), |RunsIn(c, tenant)|);
    }
  }

  lemma CountUp(n: nat, k: nat)
    ensures (n % U32_COUNT + k) % U32_COUNT == (n + k) % U32_COUNT
  {
  }

  lemma {:induction false} MonthCounter(trace: seq<Call>, tenant: string)
    ensures UsageOf(After(trace), tenant).monthResetMs == MonthOpened(trace, tenant)
    ensures UsageOf(After(trace), tenant).tokensThisMonth == Min(TokensInMonth(trace, tenant), U64_MAX)
  {
    if trace != [] {
      var front, c := Front(trace), Last(trace);
      MonthCounter(front, tenant);
      PlanIsLastSet(front, tenant);
      assert LimitsIn(After(front), tenant) == LimitsBy(front, tenant);
      MonthAfter(After(front), c, tenant);
    }
  }

  function PlanIn(s: Service, tenant: string): Option<PlanTier> {
    if tenant in s.plans then Some(s.plans[tenant]) else None
  }

  /** What the tenant of a plan is to be told that has recorded `used` runs in
      the open day, and `used` tokens in the open month. */
  function RunAnswer(tenant: string, plan: Option<PlanTier>, used: nat): Reply {
    if plan.None? then Err(NoPlan(tenant))
    else
      var limit := ForTier(plan.value).maxRunsPerDay;
      if limit == 0 || used < limit then Ok(()) else Err(LimitExceeded(RunsPerDay, used, limit, plan.value))
  }

  function TokenAnswer(tenant: string, plan: Option<PlanTier>, used: nat, additional: nat): Reply {
    if plan.None? then Err(NoPlan(tenant))
    else
      var limit := ForTier(plan.value).maxTokensPerMonth;
      if limit == 0 || Min(used + additional, U64_MAX) <= limit then Ok(())
      else Err(LimitExceeded(TokensPerMonth, used, limit, plan.value))
  }

  lemma RunReply(s: Service, tenant: string, now: nat)
    ensures var u := UsageOf(s, tenant);
      Apply(s, Call(tenant, now, CheckRun)).1 ==
        RunAnswer(tenant, PlanIn(s, tenant), if now >= u.dayResetMs + DAY_MS then 0 else u.runsToday)
  {
  }

  lemma TokenReply(s: Service, tenant: string, now: nat, additional: nat)
    ensures var u := UsageOf(s, tenant);
      Apply(s, Call(tenant, now, CheckTokens(additional))).1 ==
        TokenAnswer(tenant, PlanIn(s, tenant), if now >= u.monthResetMs + MONTH_MS then 0 else u.tokensThisMonth, additional)
  {
  }

  /**
    What a run check answers after any calls is decided by the calls: the tier
    of the last SetPlan for the tenant, and the runs recorded in the day that
    is open at `now`.
   */
  lemma RunCheckAnswers(trace: seq<Call>, tenant: string, now: nat)
    ensures Apply(After(trace), Call(tenant, now, CheckRun)).1 ==
      RunAnswer(tenant, PlanOf(trace, tenant),
                if now >= DayOpened(trace, tenant) + DAY_MS then 0 else RunsInDay(trace, tenant) % U32_COUNT)
  {
    PlanIsLastSet(trace, tenant);
    assert PlanIn(After(trace), tenant) == PlanOf(trace, tenant);
    DayCounter(trace, tenant);
    RunReply(After(trace), tenant, now);
  }

  /** What a token check answers, likewise. */
  lemma TokenCheckAnswers(trace: seq<Call>, tenant: string, now: nat, additional: nat)
    ensures Apply(After(trace), Call(tenant, now, CheckTokens(additional))).1 ==
      TokenAnswer(tenant, PlanOf(trace, tenant),
                  if now >= MonthOpened(trace, tenant) + MONTH_MS then 0 else Min(TokensInMonth(trace, tenant), U64_MAX),
                  additional)
  {
    PlanIsLastSet(trace, tenant);
    assert PlanIn(After(trace), tenant) == PlanOf(trace, tenant);
    MonthCounter(trace, tenant);
    TokenReply(After(trace), tenant, now, additional);
  }

  /** A tenant is told that it has no plan, by both checks, exactly when no
      call has set one for it. */
  lemma NoPlanAnswersIff(trace: seq<Call>, tenant: string, now: nat, additional: nat)
    ensures var none := forall c :: c in trace ==> !SetsPlan(c, tenant);
      && (Apply(After(trace), Call(tenant, now, CheckRun)).1 == Err(NoPlan(tenant)) <==> none)
      && (Apply(After(trace), Call(tenant, now, CheckTokens(additional))).1 == Err(NoPlan(tenant)) <==> none)
  {
    NoPlanIff(trace, tenant);
    RunCheckAnswers(trace, tenant, now);
    TokenCheckAnswers(trace, tenant, now, additional);
  }

  /** The limits of the tiers, as tenants meet them: how many checked calls at
      one instant go through. */
  lemma TierLimits(tenant: string, tier: PlanTier, now: nat, additional: nat)
    requires now < DAY_MS
    ensures var s := Service(map[tenant := tier], map[]);
      && (Apply(s, Call(tenant, now, CheckTokens(additional))).1.Ok? <==>
            additional <= (if tier.Free? then 100_000 else 5_000_000) || tier.Enterprise?)
      && (forall runs: nat | runs < U32_COUNT ::
            (Apply(PutUsage(s, tenant, NO_USAGE.(runsToday := runs)), Call(tenant, now, CheckRun)).1.Ok? <==>
              runs < (if tier.Free? then 50 else 1_000) || tier.Enterprise?))
  {
  }

  // ----- tenants do not meet

  /** The calls of one tenant. */
  function Own(trace: seq<Call>, tenant: string): seq<Call> {
    if trace == [] then []
    else Own(Front(trace), tenant) + (if Last(trace).tenant == tenant then [Last(trace)] else [])
  }

  /** Two services that a tenant cannot tell apart. */
  ghost predicate Alike(s: Service, t: Service, tenant: string) {
    && (tenant in s.plans <==> tenant in t.plans)
    && (tenant in s.plans ==> s.plans[tenant] == t.plans[tenant])
    && UsageOf(s, tenant) == UsageOf(t, tenant)
  }

  lemma AlikeChecks(s: Service, t: Service, c: Call)
    requires Alike(s, t, c.tenant) && (c.op.CheckRun? || c.op.CheckTokens?)
    ensures Alike(Apply(s, c).0, Apply(t, c).0, c.tenant)
    ensures Apply(s, c).1 == Apply(t, c).1
  {
  }

  lemma AlikeStays(s: Service, t: Service, c: Call)
    requires Alike(s, t, c.tenant)
    ensures Alike(Apply(s, c).0, Apply(t, c).0, c.tenant)
    ensures Apply(s, c).1 == Apply(t, c).1
  {
    if c.op.CheckRun? || c.op.CheckTokens? {
      AlikeChecks(s, t, c);
    }
  }

  lemma OthersDoNotMatter(s: Service, c: Call, tenant: string)
    requires c.tenant != tenant
    ensures Alike(s, Apply(s, c).0, tenant)
  {
  }

  /** A tenant's plan, counters and answers depend on its own calls only. */
  lemma {:induction false} TenantsAreIsolated(trace: seq<Call>, tenant: string, now: nat, op: Op)
    ensures Alike(After(trace), After(Own(trace, tenant)), tenant)
    ensures Apply(After(trace), Call(tenant, now, op)).1 == Apply(After(Own(trace, tenant)), Call(tenant, now, op)).1
  {
    if trace != [] {
      var front, c := Front(trace), Last(trace);
      TenantsAreIsolated(front, tenant, now, op);
      if c.tenant == tenant {
        assert Front(Own(trace, tenant)) == Own(front, tenant);
        AlikeStays(After(front), After(Own(front, tenant)), c);
      } else {
        assert Own(trace, tenant) == Own(front, tenant);
        OthersDoNotMatter(After(front), c, tenant);
      }
    }
    AlikeStays(After(trace), After(Own(trace, tenant)), Call(tenant, now, op));
  }

  // ----- usage reports

  /** The counters a usage report shows: no window reset is applied. */
  function Reported(s: Service, tenant: string): (nat, nat) {
    (UsageOf(s, tenant).runsToday, UsageOf(s, tenant).tokensThisMonth)
  }

  /** A report at `now` shows the count that a check at `now` would act on
      exactly when the window of the counter has not run out, or the counter
      is at zero anyway; for runs and for tokens. */
  lemma ReportIsCurrentIff(s: Service, tenant: string, now: nat)
    ensures var u := UsageOf(s, tenant); var (runs, tokens) := Reported(s, tenant);
      && (runs == MaybeResetDaily(u, now).runsToday <==> (now < u.dayResetMs + DAY_MS || runs == 0))
      && (tokens == MaybeResetMonthly(u, now).tokensThisMonth <==> (now < u.monthResetMs + MONTH_MS || tokens == 0))
  {
  }

  /** A report the day after a run still shows it. */
  lemma ReportGoesStale(tenant: string, tier: PlanTier)
    ensures var s := After([Call(tenant, DAY_MS, Op.SetPlan(tier)), Call(tenant, DAY_MS, Op.RecordRun)]);
      && Reported(s, tenant).0 == 1
      && MaybeResetDaily(UsageOf(s, tenant), 2 * DAY_MS).runsToday == 0
  {
    var planned := [Call(tenant, DAY_MS, Op.SetPlan(tier))];
    var steps := [Call(tenant, DAY_MS, Op.SetPlan(tier)), Call(tenant, DAY_MS, Op.RecordRun)];
    assert Front(planned) == [] && Front(steps) == planned;
    assert After([]) == FRESH;
    assert UsageOf(After(planned), tenant) == NO_USAGE;
  }
}
