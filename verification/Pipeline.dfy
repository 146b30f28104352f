/** Per-tenant quotas and the ordered pre-upload stages of the worker. */
module Quota {
  import opened Common

  datatype Limits = Limits(maxBytes: Option<nat>, maxObjects: Option<nat>)

  datatype Quotas = Quotas(tenants: map<string, Limits>, defaultMaxBytes: nat, defaultMaxObjects: nat)

  datatype Bounds = Bounds(maxBytes: nat, maxObjects: nat)

  datatype Usage = Usage(objects: nat, bytes: nat)

  function GetQuota(q: Quotas, tenant: string): Bounds
  {
    var t := if tenant in q.tenants then q.tenants[tenant] else Limits(None, None);
    Bounds(if t.maxBytes.Some? then t.maxBytes.value else q.defaultMaxBytes,
           if t.maxObjects.Some? then t.maxObjects.value else q.defaultMaxObjects)
  }

  function UsageOf(usage: map<string, Usage>, tenant: string): Usage
  {
    if tenant in usage then usage[tenant] else Usage(0, 0)
  }

  /** `assertWithinQuota` passes; a bound of 0 means unlimited. */
  predicate Within(b: Bounds, u: Usage, additional: nat)
  {
    && !(b.maxBytes > 0 && u.bytes + additional > b.maxBytes)
    && !(b.maxObjects > 0 && u.objects + 1 > b.maxObjects)
  }

  /** The upsert-increment of `recordUsage`. */
  function Record(usage: map<string, Usage>, tenant: string, bytes: nat): map<string, Usage>
  {
    var u := UsageOf(usage, tenant);
    usage[tenant := Usage(u.objects + 1, u.bytes + bytes)]
  }
}

module Pipeline {
  import opened Common
  import Quota

  datatype Stage = Validation | QuotaCheck | Antivirus | ContentType

  /** The order assembled by the ingestion module. */
  const STAGES: seq<Stage> := [Validation, QuotaCheck, Antivirus, ContentType]

  /** A NonRetryableError is permanent; every other throw is retried. */
  datatype Failure = Permanent(reason: string) | Transient(reason: string)

  datatype Scan = Disabled | Clean | Infected(signature: string) | Unreachable

  /** What the stages look at, and the one thing they add. */
  datatype Context = Context(
    maxFile: nat, bounds: Quota.Bounds, usage: Quota.Usage, size: nat, scan: Scan, mime: string,
    contentType: Option<string>)

  function Execute(stage: Stage, ctx: Context): Result<Context, Failure>
  {
    match stage
    case Validation =>
      if ctx.size <= 0 then Err(Permanent("File is empty"))
      else if ctx.maxFile > 0 && ctx.size > ctx.maxFile then Err(Permanent("File size exceeds limit"))
      else Ok(ctx)
    case QuotaCheck =>
      if Quota.Within(ctx.bounds, ctx.usage, ctx.size) then Ok(ctx)
      else Err(Permanent("Quota exceeded for tenant"))
    case Antivirus =>
      (match ctx.scan
       case Infected(signature) => Err(Permanent("Virus detected: " + signature))
       case Unreachable => Err(Transient("clamd unreachable"))
       case _ => Ok(ctx))
    case ContentType => Ok(ctx.(contentType := Some(ctx.mime)))
  }

  /** The stages in order; the first failure stops the rest. */
  function RunStages(stages: seq<Stage>, ctx: Context): Result<Context, Failure>
  {
    if stages == [] then Ok(ctx)
    else match Execute(stages[0], ctx)
      case Ok(next) => RunStages(stages[1..], next)
      case Err(e) => Err(e)
  }

  lemma {:induction false} RunStagesSnoc(stages: seq<Stage>, last: Stage, ctx: Context)
    ensures RunStages(stages + [last], ctx) ==
            match RunStages(stages, ctx)
            case Ok(next) => Execute(last, next)
            case Err(e) => Err(e)
  {
    if stages == [] {
      assert stages + [last] == [last];
      assert [last][1..] == [];
    } else {
      assert (stages + [last])[1..] == stages[1..] + [last];
      match Execute(stages[0], ctx)
      case Ok(next) => RunStagesSnoc(stages[1..], last, next);
      case Err(_) =>
    }
  }

  /** `ProcessingPipeline.run` over the shared, mutable context. */
  method Run(stages: seq<Stage>, start: Context) returns (outcome: Result<Context, Failure>)
    ensures outcome == RunStages(stages, start)
  {
    var ctx := start;
    for i := 0 to |stages|
      invariant RunStages(stages[..i], start) == Ok(ctx)
    {
      assert stages[..i + 1] == stages[..i] + [stages[i]];
      RunStagesSnoc(stages[..i], stages[i], start);
      match Execute(stages[i], ctx)
      case Ok(next) => ctx := next;
      case Err(e) =>
        FailureSticks(stages, i + 1, start, e);
        return Err(e);
    }
    assert stages[..|stages|] == stages;
    return Ok(ctx);
  }

  lemma {:induction false} FailureSticks(stages: seq<Stage>, n: nat, ctx: Context, e: Failure)
    requires n <= |stages| && RunStages(stages[..n], ctx) == Err(e)
    ensures RunStages(stages, ctx) == Err(e)
    decreases |stages| - n
  {
    if n < |stages| {
      assert stages[..n + 1] == stages[..n] + [stages[n]];
      RunStagesSnoc(stages[..n], stages[n], ctx);
      FailureSticks(stages, n + 1, ctx, e);
    } else {
      assert stages[..n] == stages;
    }
  }

  /** Why a file is refused: the first stage that objects. */
  function Objection(ctx: Context): string
  {
    if ctx.size == 0 then "File is empty"
    else if ctx.maxFile > 0 && ctx.size > ctx.maxFile then "File size exceeds limit"
    else if !Quota.Within(ctx.bounds, ctx.usage, ctx.size) then "Quota exceeded for tenant"
    else if ctx.scan.Infected? then "Virus detected: " + ctx.scan.signature
    else ""
  }

  /** What reaching the upload says about a file, stage by stage. */
  lemma Admission(ctx: Context)
    ensures var outcome := RunStages(STAGES, ctx);
            && (outcome.Ok? <==>
                  && 0 < ctx.size && (ctx.maxFile > 0 ==> ctx.size <= ctx.maxFile)
                  && Quota.Within(ctx.bounds, ctx.usage, ctx.size)
                  && (ctx.scan.Clean? || ctx.scan.Disabled?))
            && (outcome.Ok? ==> outcome.value == ctx.(contentType := Some(ctx.mime)))
            && (outcome.Err? && outcome.error.Transient? <==>
                  && 0 < ctx.size && (ctx.maxFile > 0 ==> ctx.size <= ctx.maxFile)
                  && Quota.Within(ctx.bounds, ctx.usage, ctx.size)
                  && ctx.scan == Unreachable)
            && (outcome.Err? && outcome.error.Permanent? ==> outcome.error.reason == Objection(ctx))
  {
    RunStagesSnoc([], Validation, ctx);
    assert [] + [Validation] == [Validation];
    RunStagesSnoc([Validation], QuotaCheck, ctx);
    assert [Validation] + [QuotaCheck] == [Validation, QuotaCheck];
    RunStagesSnoc([Validation, QuotaCheck], Antivirus, ctx);
    assert [Validation, QuotaCheck] + [Antivirus] == [Validation, QuotaCheck, Antivirus];
    RunStagesSnoc([Validation, QuotaCheck, Antivirus], ContentType, ctx);
    assert [Validation, QuotaCheck, Antivirus] + [ContentType] == STAGES;
  }
}
