/**
 * The transform dispatcher: a closed registry of the two providers' normalization rules,
 * keyed by provider name in registration order.
 */
module Transformers {
  import opened Wrappers
  import opened OrderedMaps
  import opened Payloads
  import opened Jobs
  import opened BaseTransformer
  import Provider1
  import Provider2

  /** The values of the `ProviderType` enumeration, in declaration order. */
  const ProviderTypes: seq<string> := ["provider1", "provider2"]

  /** The normalization rules a provider name is registered with. */
  datatype Rules = Provider1Rules | Provider2Rules

  /** The error raised for a provider name with no registered rules. */
  function NoTransformer(provider: string): string {
    "No transformer found for provider: " + provider
  }

  /** What the dispatcher returns for provider 1: its records, or none when the rules throw. */
  function Provider1Output(parse: DateParser, data: Payload): (jobs: seq<UnifiedJob>)
    ensures Provider1.Transform(parse, data).Success? ==> jobs == Provider1.Transform(parse, data).value
    ensures Provider1.Transform(parse, data).Failure? ==> jobs == []
  {
    match Provider1.Transform(parse, data)
    case Success(jobs) => jobs
    case Failure(_) => []
  }

  /** `Object.values(ProviderType).includes(provider)`. */
  function IsProviderSupported(provider: string): (b: bool)
    ensures b <==> provider == "provider1" || provider == "provider2"
  {
    provider in ProviderTypes
  }

  /** What the dispatcher gives for `provider`: the records its rules produce (none when
      provider 1's rules throw), or the unknown-provider error. */
  function Dispatched(provider: string, parse: DateParser, data: Payload): (r: Result<seq<UnifiedJob>, string>)
    ensures r.Failure? <==> !IsProviderSupported(provider)
    ensures r.Failure? ==> r.error == NoTransformer(provider)
  {
    if provider == "provider1" then Success(Provider1Output(parse, data))
    else if provider == "provider2" then Success(Provider2.Records(parse, data))
    else Failure(NoTransformer(provider))
  }

  class TransformerService {
    var transformers: OrderedMap<string, Rules>

    /** The registry the constructor builds, and which is never changed afterwards. */
    ghost predicate Valid()
      reads this
    {
      && transformers.Valid()
      && transformers.keys == ProviderTypes
      && transformers.Get("provider1") == Some(Provider1Rules)
      && transformers.Get("provider2") == Some(Provider2Rules)
    }

    /** Registers provider 1's rules, then provider 2's. */
    constructor()
      ensures Valid()
    {
      var m := Empty<string, Rules>();
      m := m.Set("provider1", Provider1Rules);
      m := m.Set("provider2", Provider2Rules);
      transformers := m;
    }

    /** Exactly the supported providers have registered rules. */
    lemma RegisteredIffSupported(provider: string)
      requires Valid()
      ensures transformers.Get(provider).Some? <==> IsProviderSupported(provider)
    {
    }

    /** The registry's keys in registration order. */
    function GetSupportedProviders(): (providers: seq<string>)
      reads this
      requires Valid()
      ensures providers == ProviderTypes
      ensures forall p :: p in providers <==> IsProviderSupported(p)
    {
      transformers.keys
    }

    /** Runs the rules registered for `provider` on a fetched body. An unknown provider is an
        error; an error inside the rules is swallowed and gives no records. */
    method Transform(provider: string, parse: DateParser, data: Payload)
      returns (r: Result<seq<UnifiedJob>, string>)
      requires Valid()
      ensures r.Failure? <==> !IsProviderSupported(provider)
      ensures r.Failure? ==> r.error == NoTransformer(provider)
      ensures provider == "provider1" ==> r == Success(Provider1Output(parse, data))
      ensures provider == "provider2" ==> r == Success(Provider2.Records(parse, data))
      ensures r == Dispatched(provider, parse, data)
    {
      var transformer := transformers.Get(provider);
      if transformer.None? {
        return Failure(NoTransformer(provider));
      }
      match transformer.value
      case Provider1Rules =>
        var out := Provider1.Transform(parse, data);
        r := if out.Success? then Success(out.value) else Success([]);
      case Provider2Rules =>
        var jobs := Provider2.Transform(parse, data);
        r := Success(jobs);
    }
  }
}
