/** The JSON shapes that travel between the ingestion backend and the
    dashboard client: a snapshot of stores and their shoes, alerts, the
    readings that arrive from the upstream feed and the two payloads of the
    broadcast channel. */
module Wire {

  datatype Option<+T> = None | Some(value: T)

  /** One `{model, inventory}` entry of a store. */
  datatype Shoe = Shoe(model: string, inventory: int)

  /** One `{name, shoes}` entry of a snapshot; shoes in creation order. */
  datatype StoreEntry = StoreEntry(name: string, shoes: seq<Shoe>)

  /** Stores in creation order. */
  type Snapshot = seq<StoreEntry>

  /** One upstream message `{store, model, inventory}`. */
  datatype Reading = Reading(store: string, model: string, inventory: int)

  /** A low-inventory alert `{message, severity}`; severity is free text on
      the wire ("high" and "medium" are the values the backend produces). */
  datatype Alert = Alert(message: string, severity: string)

  /** What the channel `inventory_channel` carries: a snapshot with its
      alerts, or the terminal `{error: ...}` signal. */
  datatype Payload =
    | Normal(inventory: Snapshot, alerts: seq<Alert>)
    | ErrorSignal(error: string)

  /** The models of a store's shoes, in order. */
  function Models(shoes: seq<Shoe>): (ms: seq<string>)
    ensures |ms| == |shoes|
    ensures forall k :: 0 <= k < |shoes| ==> ms[k] == shoes[k].model
  {
    seq(|shoes|, k requires 0 <= k < |shoes| => shoes[k].model)
  }

  /** The store names of a snapshot, in order. */
  function Names(s: Snapshot): (ns: seq<string>)
    ensures |ns| == |s|
    ensures forall i :: 0 <= i < |s| ==> ns[i] == s[i].name
  {
    seq(|s|, i requires 0 <= i < |s| => s[i].name)
  }

  predicate Distinct<T(==)>(xs: seq<T>)
  {
    forall i, j :: 0 <= i < j < |xs| ==> xs[i] != xs[j]
  }

  /** (store, model) is a key of the snapshot: store names are distinct and
      so are the models within each store. */
  predicate UniqueKeys(s: Snapshot)
  {
    Distinct(Names(s)) && forall i :: 0 <= i < |s| ==> Distinct(Models(s[i].shoes))
  }
}
