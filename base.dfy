/** `normalize`: the fixed reservation shape every connector produces. */
module Base {
  import opened Values

  /** The nine keys of a normalised reservation. */
  const ReservationKeys: set<string> := {
    "provider", "category", "title", "location", "start_time", "end_time",
    "confirmation_number", "details", "source"}

  /**
   * `normalize(item)`: the nine keys, with "other", "Reservation" and `{}`
   * as the defaults of category, title and details, `None` for the other
   * absent keys, and `source` forced to "api".
   */
  function Normalize(item: map<string, Value>): (r: map<string, Value>)
    ensures r.Keys == ReservationKeys
    ensures r["source"] == Str("api")
  {
    map[
      "provider" := Get(item, "provider", Null),
      "category" := Get(item, "category", Str("other")),
      "title" := Get(item, "title", Str("Reservation")),
      "location" := Get(item, "location", Null),
      "start_time" := Get(item, "start_time", Null),
      "end_time" := Get(item, "end_time", Null),
      "confirmation_number" := Get(item, "confirmation_number", Null),
      "details" := Get(item, "details", Dict(map[])),
      "source" := Str("api")]
  }

  /** The keys `normalize` copies from its input (all but `source`). */
  const CopiedKeys: set<string> := ReservationKeys - {"source"}

  /** The default of each copied key. */
  function Default(key: string): Value {
    if key == "category" then Str("other")
    else if key == "title" then Str("Reservation")
    else if key == "details" then Dict(map[])
    else Null
  }

  /**
   * Every copied key keeps a present value as it is, even `None` or an empty
   * value, and takes its default only when absent; other input keys are dropped.
   */
  lemma NormalizeCopies(item: map<string, Value>, key: string)
    requires key in CopiedKeys
    ensures key in item ==> Normalize(item)[key] == item[key]
    ensures key !in item ==> Normalize(item)[key] == Default(key)
  {
  }

  /** Keys other than the nine never reach the output. */
  lemma NormalizeDrops(item: map<string, Value>, key: string)
    requires key in item && key !in ReservationKeys
    ensures key !in Normalize(item)
  {
  }

  /** `normalize(normalize(x)) == normalize(x)`. */
  lemma NormalizeIdempotent(item: map<string, Value>)
    ensures Normalize(Normalize(item)) == Normalize(item)
  {
    var once := Normalize(item);
    var twice := Normalize(once);
    assert twice.Keys == once.Keys;
    forall k | k in once.Keys
      ensures twice[k] == once[k]
    {
    }
  }
}
