/** `src/utils/storage.ts`: the folder-processor configurations, kept as
    one JSON array under the `processors` key of local storage. JSON
    encoding and decoding are parameters; the decoder tells an array from
    any other JSON value. */
module Storage {
  import opened Js
  import opened ById

  datatype Processor = Processor(
    id: string,
    name: string,
    directory: string,
    icon: Option<string>,
    createdAt: int)

  /** What `JSON.parse` makes of the stored string, as far as
      `Array.isArray` can tell. */
  datatype Parsed = ParsedArray(items: seq<Processor>) | ParsedOther

  function IdOf(): Processor -> string
  {
    (p: Processor) => p.id
  }

  /** `listProcessors` on a stored item. */
  function Listed(item: Option<string>, parse: string -> Option<Parsed>): seq<Processor>
  {
    if item.None? || item.value == "" then []
    else match parse(item.value)
      case Some(ParsedArray(items)) => items
      case _ => []
  }

  /** The list is empty when storage is missing, empty, does not decode or
      decodes to something other than an array, and is the stored array
      otherwise. */
  lemma ListedCases(item: Option<string>, parse: string -> Option<Parsed>)
    ensures item.None? || item == Some("") ==> Listed(item, parse) == []
    ensures item.Some? && (parse(item.value).None? || parse(item.value) == Some(ParsedOther)) ==>
      Listed(item, parse) == []
    ensures item.Some? && item.value != "" && parse(item.value).Some? && parse(item.value).value.ParsedArray? ==>
      Listed(item, parse) == parse(item.value).value.items
  {
  }

  /** A list written with a round-tripping, non-empty encoding is listed
      back as written. */
  lemma WrittenIsListed(ps: seq<Processor>, parse: string -> Option<Parsed>, stringify: seq<Processor> -> string)
    requires parse(stringify(ps)) == Some(ParsedArray(ps)) && stringify(ps) != ""
    ensures Listed(Some(stringify(ps)), parse) == ps
  {
  }

  /** Adding appends even when the id is taken: the earlier entry stays the
      one `getProcessor` finds, and the new one follows it. */
  lemma {:induction false} AddKeepsDuplicates(ps: seq<Processor>, config: Processor)
    requires Find(ps, IdOf(), config.id).Some?
    ensures |ps + [config]| == |ps| + 1 && (ps + [config])[|ps|] == config
    ensures Find(ps + [config], IdOf(), config.id) == Find(ps, IdOf(), config.id)
  {
    var k :| IsFirst(ps, IdOf(), config.id, k) && ps[k] == Find(ps, IdOf(), config.id).value;
    assert IsFirst(ps + [config], IdOf(), config.id, k);
    assert FindIndex(ps + [config], IdOf(), config.id) == k;
  }

  /** Adding a new id makes it findable as the added configuration. */
  lemma AddNewIsFound(ps: seq<Processor>, config: Processor)
    requires Find(ps, IdOf(), config.id).None?
    ensures Find(ps + [config], IdOf(), config.id) == Some(config)
  {
    assert IsFirst(ps + [config], IdOf(), config.id, |ps|);
    assert FindIndex(ps + [config], IdOf(), config.id) == |ps|;
  }

  /** The `processors` entry of local storage. */
  class Store {
    var item: Option<string>

    constructor (item: Option<string>)
      ensures this.item == item
    {
      this.item := item;
    }

    /** `listProcessors`: reads and changes nothing. */
    method List(parse: string -> Option<Parsed>) returns (r: seq<Processor>)
      ensures r == Listed(item, parse)
    {
      if item.None? || item.value == "" {
        return [];
      }
      var parsed := parse(item.value);
      if parsed.Some? && parsed.value.ParsedArray? {
        r := parsed.value.items;
      } else {
        r := [];
      }
    }

    /** `addProcessor`: the listed array with the configuration pushed at
        its end. */
    method Add(config: Processor, parse: string -> Option<Parsed>, stringify: seq<Processor> -> string)
      modifies this
      ensures item == Some(stringify(Listed(old(item), parse) + [config]))
    {
      var processors := List(parse);
      processors := processors + [config];
      item := Some(stringify(processors));
    }

    /** `removeProcessor`. */
    method Remove(id: string, parse: string -> Option<Parsed>, stringify: seq<Processor> -> string)
      modifies this
      ensures item == Some(stringify(Without(Listed(old(item), parse), IdOf(), id)))
    {
      var processors := List(parse);
      var filtered := Without(processors, IdOf(), id);
      item := Some(stringify(filtered));
    }

    /** `getProcessor`: the first configuration with the id; changes
        nothing. */
    method Get(id: string, parse: string -> Option<Parsed>) returns (r: Option<Processor>)
      ensures r == Find(Listed(item, parse), IdOf(), id)
    {
      var processors := List(parse);
      r := Find(processors, IdOf(), id);
    }
  }
}
