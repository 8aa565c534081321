/**
 The transform task `transform_apod_data`: it builds a fresh dictionary with
 exactly five keys, each read from the response with `.get(key, '')`.
 */
module Projection {
  import opened Json

  /** The five keys of the record, in the order the dictionary literal lists them. */
  const Keys: seq<string> := ["title", "explanation", "url", "date", "media_type"]

  /** The same five keys as a set. */
  const KeySet: set<string> := set k | k in Keys

  /** True when `a` and `b` hold the same entries for every key in `keys`
      (both absent, or both present with equal values). */
  ghost predicate AgreeOn(a: map<string, Value>, b: map<string, Value>, keys: set<string>)
  {
    forall k :: k in keys ==> (k in a <==> k in b) && (k in a ==> a[k] == b[k])
  }

  /** The record `transform_apod_data` returns for a decoded response object. */
  function Transform(response: map<string, Value>): (record: map<string, Value>)
    ensures record.Keys == KeySet
    ensures forall k :: k in KeySet && k in response ==> record[k] == response[k]
    ensures forall k :: k in KeySet && k !in response ==> record[k] == Empty
  {
    map[
      "title" := Get(response, "title", Empty),
      "explanation" := Get(response, "explanation", Empty),
      "url" := Get(response, "url", Empty),
      "date" := Get(response, "date", Empty),
      "media_type" := Get(response, "media_type", Empty)
    ]
  }

  /** A key present with a `Null` value is passed through as `Null`; it is not
      replaced by the empty string. */
  lemma NullPassesThrough(response: map<string, Value>, k: string)
    requires k in KeySet && k in response && response[k] == Null
    ensures Transform(response)[k] == Null
    ensures Transform(response)[k] != Empty
  {
  }

  /** Two responses give the same record exactly when their lookups with the
      empty-string default agree on the five keys. */
  lemma SameRecordIff(a: map<string, Value>, b: map<string, Value>)
    ensures Transform(a) == Transform(b)
            <==> forall k :: k in KeySet ==> Get(a, k, Empty) == Get(b, k, Empty)
  {
  }

  /** Keys other than the five never influence the record. */
  lemma OtherKeysIgnored(a: map<string, Value>, b: map<string, Value>)
    requires AgreeOn(a, b, KeySet)
    ensures Transform(a) == Transform(b)
  {
  }

  /** The record holds exactly its own keys, so transforming it again changes nothing. */
  lemma Idempotent(response: map<string, Value>)
    ensures Transform(Transform(response)) == Transform(response)
  {
  }

  /** The empty response gives five empty strings. */
  lemma EmptyResponse()
    ensures Transform(map[]) == map k | k in KeySet :: Empty
  {
  }

  /** A response carrying only a title: the other four fields are empty strings. */
  lemma TitleOnlyResponse()
    ensures Transform(map["title" := Str("Nebula")])
            == map["title" := Str("Nebula"), "explanation" := Empty, "url" := Empty,
                   "date" := Empty, "media_type" := Empty]
  {
  }
}
