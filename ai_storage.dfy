/** `src/utils/aiStorage.ts`: the list of AI search providers and the
    default provider, kept as one JSON string under the `ai-config` key of
    the extension's local storage. Every operation reads the configuration
    afresh, changes it and writes it back. The store is the class below;
    it also holds the module array `DEFAULT_AI_PROVIDERS`, which the
    fallback configuration shares. JSON encoding and decoding are
    parameters. */
module AIStorage {
  import opened Js
  import opened ById

  datatype Provider = Provider(
    id: string,
    name: string,
    icon: Option<string>,
    url: string,
    appUrl: Option<string>,
    description: Option<string>)

  datatype Config = Config(providers: seq<Provider>, defaultProviderId: Option<string>)

  function IdOf(): Provider -> string
  {
    (p: Provider) => p.id
  }

  const Perplexity := Provider("perplexity", "Perplexity", Some("🔍"), "https://www.perplexity.ai/search?q={query}",
    Some("perplexity-app://search?q={query}"), Some("AI-powered search engine"))
  const ChatGPT := Provider("chatgpt", "ChatGPT", Some("💬"), "https://chat.openai.com/?q={query}",
    None, Some("OpenAI's conversational AI"))
  const Claude := Provider("claude", "Claude", Some("🤖"), "https://claude.ai/new?q={query}",
    None, Some("Anthropic's AI assistant"))
  const Grok := Provider("grok", "Grok", Some("✨"), "https://x.com/i/grok?q={query}",
    None, Some("xAI's conversational AI"))
  const Gemini := Provider("gemini", "Gemini", Some("🌟"), "https://gemini.google.com/app?q={query}",
    None, Some("Google's AI assistant"))
  const Copilot := Provider("copilot", "Copilot", Some("🚀"), "https://copilot.microsoft.com/?q={query}",
    None, Some("Microsoft's AI assistant"))

  /** `DEFAULT_AI_PROVIDERS`. */
  const DefaultProviders: seq<Provider> := [Perplexity, ChatGPT, Claude, Grok, Gemini, Copilot]

  /** The configuration `getAIConfig` builds when storage holds nothing
      usable. Its `providers` is the array `DEFAULT_AI_PROVIDERS` itself,
      not a copy, so `defaults` is that array as it now stands. */
  function Fallback(defaults: seq<Provider>): Config
  {
    Config(defaults, Some("perplexity"))
  }

  /** The configuration the module starts with. */
  const DefaultConfig := Fallback(DefaultProviders)

  /** The built-in configuration: six providers, Perplexity first and the
      default. */
  lemma DefaultConfigShape()
    ensures |DefaultConfig.providers| == 6
    ensures DefaultConfig.defaultProviderId == Some(DefaultConfig.providers[0].id)
    ensures DefaultConfig.providers[0].id == "perplexity"
    ensures Find(DefaultConfig.providers, IdOf(), "perplexity") == Some(Perplexity)
  {
    assert IdOf()(DefaultProviders[0]) == "perplexity";
  }

  /** What storage holds: a truthy string that parses. */
  function Stored(item: Option<string>, parse: string -> Option<Config>): Option<Config>
  {
    if item.Some? && item.value != "" then parse(item.value) else None
  }

  /** The configuration `getAIConfig` returns while `DEFAULT_AI_PROVIDERS`
      holds `defaults`. */
  function Current(defaults: seq<Provider>, item: Option<string>, parse: string -> Option<Config>): Config
  {
    var stored := Stored(item, parse);
    if stored.Some? then stored.value else Fallback(defaults)
  }

  /** Missing, empty or unparseable storage gives the fallback
      configuration over the current defaults; a stored configuration that
      decodes is returned as stored, whatever the defaults. */
  lemma CurrentCases(defaults: seq<Provider>, item: Option<string>, parse: string -> Option<Config>)
    ensures item.None? ==> Current(defaults, item, parse) == Fallback(defaults)
    ensures item == Some("") ==> Current(defaults, item, parse) == Fallback(defaults)
    ensures item.Some? && parse(item.value).None? ==> Current(defaults, item, parse) == Fallback(defaults)
    ensures item.Some? && item.value != "" && parse(item.value).Some? ==>
      Current(defaults, item, parse) == parse(item.value).value
    ensures Current(defaults, item, parse).providers == defaults || Stored(item, parse).Some?
  {
  }

  /** A configuration written by `saveAIConfig` is read back by
      `getAIConfig` when the encoding round-trips and is non-empty. */
  lemma SavedIsCurrent(defaults: seq<Provider>, c: Config, parse: string -> Option<Config>, stringify: Config -> string)
    requires parse(stringify(c)) == Some(c) && stringify(c) != ""
    ensures Current(defaults, Some(stringify(c)), parse) == c
  {
  }

  /** `addAIProvider` on a configuration: the first provider with the same
      id is replaced in place, otherwise the provider is appended. */
  function Upsert(providers: seq<Provider>, p: Provider): seq<Provider>
  {
    var k := FindIndex(providers, IdOf(), p.id);
    if k >= 0 then providers[k := p] else providers + [p]
  }

  /** What an add promises: the list grows by one exactly when the id was
      new, every other position keeps its provider, and looking the id up
      afterwards finds the new provider. */
  lemma UpsertShape(providers: seq<Provider>, p: Provider)
    ensures var r := Upsert(providers, p);
      |providers| <= |r| <= |providers| + 1 &&
      (|r| == |providers| + 1 <==> Find(providers, IdOf(), p.id).None?) &&
      (forall j :: 0 <= j < |providers| && providers[j].id != p.id ==> r[j] == providers[j]) &&
      Find(r, IdOf(), p.id) == Some(p)
  {
    var r := Upsert(providers, p);
    var k := FindIndex(providers, IdOf(), p.id);
    if k >= 0 {
      assert IsFirst(r, IdOf(), p.id, k);
      assert FindIndex(r, IdOf(), p.id) == k;
    } else {
      assert IsFirst(r, IdOf(), p.id, |providers|);
      assert FindIndex(r, IdOf(), p.id) == |providers|;
    }
  }

  /** Adding leaves the lookups of every other id as they were. */
  lemma UpsertOthers(providers: seq<Provider>, p: Provider, id: string)
    requires id != p.id
    ensures Find(Upsert(providers, p), IdOf(), id) == Find(providers, IdOf(), id)
  {
    var r := Upsert(providers, p);
    var k := FindIndex(providers, IdOf(), id);
    var k' := FindIndex(r, IdOf(), id);
    assert forall j :: 0 <= j < |providers| ==> (IdOf()(r[j]) == id <==> IdOf()(providers[j]) == id);
    assert forall j :: |providers| <= j < |r| ==> r[j] == p;
    if k == -1 {
      assert forall j :: 0 <= j < |r| ==> IdOf()(r[j]) != id;
    } else {
      assert IsFirst(r, IdOf(), id, k);
      assert k' == k;
    }
  }

  /** `removeAIProvider` on a configuration. */
  function Remove(c: Config, id: string): Config
  {
    var providers := Without(c.providers, IdOf(), id);
    if c.defaultProviderId == Some(id) && |providers| > 0 then Config(providers, Some(providers[0].id))
    else Config(providers, c.defaultProviderId)
  }

  /** No provider with the id survives, the others keep their order, and
      a removed default moves to the first remaining provider, which can
      then be found; any other default stays, even one naming no provider. */
  lemma RemoveShape(c: Config, id: string)
    ensures var r := Remove(c, id);
      r.providers == Without(c.providers, IdOf(), id) &&
      Find(r.providers, IdOf(), id).None? &&
      (c.defaultProviderId == Some(id) && |r.providers| > 0 ==>
        r.defaultProviderId == Some(r.providers[0].id) &&
        Find(r.providers, IdOf(), r.providers[0].id) == Some(r.providers[0]) &&
        r.providers[0].id != id) &&
      (c.defaultProviderId != Some(id) || |r.providers| == 0 ==> r.defaultProviderId == c.defaultProviderId)
  {
    var r := Remove(c, id);
    WithoutThenFind(c.providers, IdOf(), id);
    if |r.providers| > 0 {
      assert IsFirst(r.providers, IdOf(), r.providers[0].id, 0);
    }
  }

  /** Removing the only provider empties the list and keeps the now
      dangling default. */
  lemma RemoveLastKeepsDefault(p: Provider)
    ensures Remove(Config([p], Some(p.id)), p.id) == Config([], Some(p.id))
  {
    assert Without([p], IdOf(), p.id) == [];
  }

  /** The `ai-config` entry of local storage, and the module array
      `DEFAULT_AI_PROVIDERS`, which an add writes into when the
      configuration it read was the fallback. */
  class Store {
    var item: Option<string>
    var defaults: seq<Provider>

    constructor (item: Option<string>)
      ensures this.item == item && defaults == DefaultProviders
    {
      this.item := item;
      defaults := DefaultProviders;
    }

    /** `saveAIConfig`: the configuration is stored as its JSON text. */
    method Save(c: Config, stringify: Config -> string)
      modifies this
      ensures item == Some(stringify(c)) && defaults == old(defaults)
    {
      item := Some(stringify(c));
    }

    /** `getAIConfig`: the stored configuration, or the fallback one, which
        is then written back. */
    method GetConfig(parse: string -> Option<Config>, stringify: Config -> string) returns (c: Config)
      modifies this
      ensures c == Current(old(defaults), old(item), parse)
      ensures item == if Stored(old(item), parse).Some? then old(item) else Some(stringify(Fallback(old(defaults))))
      ensures defaults == old(defaults)
    {
      if item.Some? && item.value != "" {
        var parsed := parse(item.value);
        if parsed.Some? {
          return parsed.value;
        }
      }
      c := Fallback(defaults);
      Save(c, stringify);
    }

    /** `getAIProvider`: the first provider with the id. */
    method GetProvider(id: string, parse: string -> Option<Config>, stringify: Config -> string)
      returns (r: Option<Provider>)
      modifies this
      ensures r == Find(Current(old(defaults), old(item), parse).providers, IdOf(), id)
      ensures item == if Stored(old(item), parse).Some? then old(item) else Some(stringify(Fallback(old(defaults))))
      ensures defaults == old(defaults)
    {
      var config := GetConfig(parse, stringify);
      r := Find(config.providers, IdOf(), id);
    }

    /** `addAIProvider`. The providers array is changed in place: when the
        configuration read was the fallback, that array is
        `DEFAULT_AI_PROVIDERS`. */
    method AddProvider(p: Provider, parse: string -> Option<Config>, stringify: Config -> string)
      modifies this
      ensures (defaults, item) == Step(old(defaults), old(item), AddOp(p), parse, stringify)
    {
      var fellBack := Stored(item, parse).None?;
      var config := GetConfig(parse, stringify);
      var existingIndex := FindIndex(config.providers, IdOf(), p.id);
      if existingIndex >= 0 {
        config := config.(providers := config.providers[existingIndex := p]);
      } else {
        config := config.(providers := config.providers + [p]);
      }
      if fellBack {
        defaults := config.providers;
      }
      Save(config, stringify);
    }

    /** `removeAIProvider`. The filtered list is a new array, so the
        defaults are never touched. */
    method RemoveProvider(id: string, parse: string -> Option<Config>, stringify: Config -> string)
      modifies this
      ensures (defaults, item) == Step(old(defaults), old(item), RemoveOp(id), parse, stringify)
    {
      var config := GetConfig(parse, stringify);
      config := config.(providers := Without(config.providers, IdOf(), id));
      if config.defaultProviderId == Some(id) && |config.providers| > 0 {
        config := config.(defaultProviderId := Some(config.providers[0].id));
      }
      Save(config, stringify);
    }

    /** `setDefaultAIProvider`: the id is stored whether or not a provider
        has it. */
    method SetDefaultProvider(id: string, parse: string -> Option<Config>, stringify: Config -> string)
      modifies this
      ensures (defaults, item) == Step(old(defaults), old(item), SetDefaultOp(id), parse, stringify)
    {
      var config := GetConfig(parse, stringify);
      config := config.(defaultProviderId := Some(id));
      Save(config, stringify);
    }
  }

  /** The operations that change the configuration. */
  datatype Op = AddOp(p: Provider) | RemoveOp(id: string) | SetDefaultOp(id: string)

  /** The configuration an operation saves, computed from the one
      `getAIConfig` returned. */
  function Apply(c: Config, op: Op): Config
  {
    match op
    case AddOp(p) => Config(Upsert(c.providers, p), c.defaultProviderId)
    case RemoveOp(id) => Remove(c, id)
    case SetDefaultOp(id) => Config(c.providers, Some(id))
  }

  /** One operation as written: the new `DEFAULT_AI_PROVIDERS` and the new
      `ai-config` entry. Every operation ends by saving; only an add that
      read the fallback changes the defaults, and then they become the
      list it saved. */
  function Step(defaults: seq<Provider>, item: Option<string>, op: Op,
                parse: string -> Option<Config>, stringify: Config -> string): (r: (seq<Provider>, Option<string>))
    ensures r.1 == Some(stringify(Apply(Current(defaults, item, parse), op)))
    ensures Stored(item, parse).Some? || !op.AddOp? ==> r.0 == defaults
    ensures Stored(item, parse).None? && op.AddOp? ==>
      r.0 == Upsert(defaults, op.p) && r.0 == Apply(Current(defaults, item, parse), op).providers
  {
    var saved := Apply(Current(defaults, item, parse), op);
    if Stored(item, parse).None? && op.AddOp? then (saved.providers, Some(stringify(saved)))
    else (defaults, Some(stringify(saved)))
  }

  /** A session of operations as written, from the given defaults and
      entry. */
  function RunAsWritten(defaults: seq<Provider>, item: Option<string>, ops: seq<Op>,
                        parse: string -> Option<Config>, stringify: Config -> string): (seq<Provider>, Option<string>)
    decreases |ops|
  {
    if ops == [] then (defaults, item)
    else
      var r := Step(defaults, item, ops[0], parse, stringify);
      RunAsWritten(r.0, r.1, ops[1..], parse, stringify)
  }

  /** The same session when `getAIConfig` falls back to a copy of the
      defaults: the entry evolves as written and the defaults never
      change. */
  function RunIntended(defaults: seq<Provider>, item: Option<string>, ops: seq<Op>,
                       parse: string -> Option<Config>, stringify: Config -> string): (seq<Provider>, Option<string>)
    decreases |ops|
  {
    if ops == [] then (defaults, item)
    else RunIntended(defaults, Step(defaults, item, ops[0], parse, stringify).1, ops[1..], parse, stringify)
  }

  /** The JSON encoding reads back every configuration it writes, and never
      writes the empty string. */
  ghost predicate RoundTrips(parse: string -> Option<Config>, stringify: Config -> string)
  {
    forall c: Config :: parse(stringify(c)) == Some(c) && stringify(c) != ""
  }

  /** As written, adding a provider that is not one of the built-ins while
      nothing is stored puts it into `DEFAULT_AI_PROVIDERS`: the preset list
      shows it and a later fallback returns it. */
  lemma FallbackAddChangesDefaults(p: Provider, parse: string -> Option<Config>, stringify: Config -> string)
    requires p !in DefaultProviders
    ensures var r := RunAsWritten(DefaultProviders, None, [AddOp(p)], parse, stringify);
      r.0 != DefaultProviders &&
      Find(r.0, IdOf(), p.id) == Some(p) &&
      Find(Current(r.0, None, parse).providers, IdOf(), p.id) == Some(p)
  {
    var r := RunAsWritten(DefaultProviders, None, [AddOp(p)], parse, stringify);
    var s := Step(DefaultProviders, None, AddOp(p), parse, stringify);
    assert [AddOp(p)][1..] == [];
    assert r == RunAsWritten(s.0, s.1, [], parse, stringify) == s;
    UpsertShape(DefaultProviders, p);
  }

  /** Once the entry holds a configuration that parses, the defaults are
      never read, so two sessions that differ only in their defaults save
      the same entries. */
  lemma {:induction false} StoredIgnoresDefaults(d: seq<Provider>, e: seq<Provider>, item: Option<string>, ops: seq<Op>,
                                                 parse: string -> Option<Config>, stringify: Config -> string)
    requires RoundTrips(parse, stringify)
    requires Stored(item, parse).Some?
    ensures RunAsWritten(d, item, ops, parse, stringify).1 == RunIntended(e, item, ops, parse, stringify).1
    decreases |ops|
  {
    if ops != [] {
      var r := Step(d, item, ops[0], parse, stringify);
      var s := Step(e, item, ops[0], parse, stringify);
      assert r.1 == s.1;
      var c := Apply(Current(d, item, parse), ops[0]);
      assert parse(stringify(c)) == Some(c) && stringify(c) != "";
      StoredIgnoresDefaults(r.0, e, r.1, ops[1..], parse, stringify);
    }
  }

  /** The corrected session keeps `DEFAULT_AI_PROVIDERS` as it was and,
      for an encoding that round-trips, saves exactly the entries the
      session as written saves: the aliasing changes nothing but the
      defaults. */
  lemma {:induction false} IntendedKeepsDefaults(d: seq<Provider>, item: Option<string>, ops: seq<Op>,
                                                 parse: string -> Option<Config>, stringify: Config -> string)
    requires RoundTrips(parse, stringify)
    ensures RunIntended(d, item, ops, parse, stringify).0 == d
    ensures RunIntended(d, item, ops, parse, stringify).1 == RunAsWritten(d, item, ops, parse, stringify).1
    decreases |ops|
  {
    if ops != [] {
      var r := Step(d, item, ops[0], parse, stringify);
      var c := Apply(Current(d, item, parse), ops[0]);
      assert parse(stringify(c)) == Some(c) && stringify(c) != "";
      StoredIgnoresDefaults(r.0, d, r.1, ops[1..], parse, stringify);
      IntendedDefaultsFixed(d, r.1, ops[1..], parse, stringify);
    }
  }

  /** The corrected session never changes the defaults. */
  lemma {:induction false} IntendedDefaultsFixed(d: seq<Provider>, item: Option<string>, ops: seq<Op>,
                                                 parse: string -> Option<Config>, stringify: Config -> string)
    ensures RunIntended(d, item, ops, parse, stringify).0 == d
    decreases |ops|
  {
    if ops != [] {
      IntendedDefaultsFixed(d, Step(d, item, ops[0], parse, stringify).1, ops[1..], parse, stringify);
    }
  }
}
