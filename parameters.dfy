// The caller-supplied parameters of provision and update requests: five
// string fields, each decoded from the parameter map under a fixed key, the
// way the mapstructure decoder fills a struct from a map.
module Parameters {
  import opened Errors

  /** A value of the caller's (JSON-decoded) parameter map: a string, null, or
      a value of some other type, named as the decoder names it ("bool",
      "float64", ...). */
  datatype Value = Str(s: string) | Null | NonString(typeName: string)

  /** The five queue tunables a caller may override. */
  datatype Tunable =
    | DelaySeconds
    | MaximumMessageSize
    | MessageRetentionPeriod
    | ReceiveMessageWaitTimeSeconds
    | VisibilityTimeout

  /** The decoded parameters.  ProvisionParameters and UpdateParameters declare
      the same five fields under the same keys, so one type serves both. */
  datatype QueueParameters = QueueParameters(
    delaySeconds: string,
    maximumMessageSize: string,
    messageRetentionPeriod: string,
    receiveMessageWaitTimeSeconds: string,
    visibilityTimeout: string)

  type ProvisionParameters = QueueParameters
  type UpdateParameters = QueueParameters

  /** The zero value: what the broker uses when decoding is switched off. */
  const NoParameters: QueueParameters := QueueParameters("", "", "", "", "")

  /** The key of each field in the parameter map (its mapstructure tag). */
  function Key(t: Tunable): string {
    match t
    case DelaySeconds => "delay_seconds"
    case MaximumMessageSize => "maximum_message_size"
    case MessageRetentionPeriod => "message_retention_period"
    case ReceiveMessageWaitTimeSeconds => "receive_message_wait_time_seconds"
    case VisibilityTimeout => "visibility_timeout"
  }

  function Get(p: QueueParameters, t: Tunable): string {
    match t
    case DelaySeconds => p.delaySeconds
    case MaximumMessageSize => p.maximumMessageSize
    case MessageRetentionPeriod => p.messageRetentionPeriod
    case ReceiveMessageWaitTimeSeconds => p.receiveMessageWaitTimeSeconds
    case VisibilityTimeout => p.visibilityTimeout
  }

  /** The field a key names exactly, if any: the table is a bijection between
      the five tunables and five keys. */
  function FieldOf(key: string): (r: Option<Tunable>)
    ensures r.Some? ==> Key(r.value) == key
    ensures r.None? ==> forall t :: Key(t) != key
  {
    if key == "delay_seconds" then Some(DelaySeconds)
    else if key == "maximum_message_size" then Some(MaximumMessageSize)
    else if key == "message_retention_period" then Some(MessageRetentionPeriod)
    else if key == "receive_message_wait_time_seconds" then Some(ReceiveMessageWaitTimeSeconds)
    else if key == "visibility_timeout" then Some(VisibilityTimeout)
    else None
  }

  /** Distinct fields have distinct keys. */
  lemma KeysDistinct(t: Tunable, u: Tunable)
    ensures Key(t) == Key(u) ==> t == u
  {
    var r := FieldOf(Key(t));
  }

  // Case-insensitive key matching.  When a field's key is not in the map, the
  // decoder takes the first map key, in the order it visits them, that equals
  // the field's key under strings.EqualFold.

  /** The representative of a character under Go's simple case folding, for
      the characters whose orbit holds a lower-case ASCII letter: an upper-case
      ASCII letter folds to its lower case, and so do LATIN SMALL LETTER LONG S
      (onto 's') and KELVIN SIGN (onto 'k'); every other character stands for
      itself. */
  function Fold(c: char): char {
    if 'A' <= c <= 'Z' then (c as int + 32) as char
    else if c == 'ſ' then 's'
    else if c == 'K' then 'k'
    else c
  }

  /** strings.EqualFold against a key made of lower-case ASCII letters and
      underscores, which is what every field key is. */
  predicate EqualFold(a: string, b: string) {
    |a| == |b| && forall i :: 0 <= i < |a| ==> Fold(a[i]) == Fold(b[i])
  }

  /** The position, in the visiting order `order`, of the first key of `raw`
      that equals `key` under case folding (|order| when there is none). */
  function FirstFolded(raw: map<string, Value>, order: seq<string>, key: string): (i: nat)
    ensures i <= |order|
    ensures i < |order| ==> order[i] in raw && EqualFold(order[i], key)
    ensures forall j :: 0 <= j < i ==> !(order[j] in raw && EqualFold(order[j], key))
    decreases |order|
  {
    if order == [] then 0
    else if order[0] in raw && EqualFold(order[0], key) then 0
    else 1 + FirstFolded(raw, order[1..], key)
  }

  /** The value the decoder reads for `key`: the value under `key` itself when
      there is one, else the value under the first case-folded match in the
      visiting order, else nothing. */
  function Found(raw: map<string, Value>, order: seq<string>, key: string): (r: Option<Value>)
    ensures key in raw ==> r == Some(raw[key])
  {
    if key in raw then Some(raw[key])
    else
      var i := FirstFolded(raw, order, key);
      if i < |order| then Some(raw[order[i]]) else None
  }

  /** Without an exact match, something is found exactly when a visited key
      case-folds to `key`; whatever is found is the value of such a key. */
  lemma {:induction false} FoundMeaning(raw: map<string, Value>, order: seq<string>, key: string)
    ensures key !in raw ==> (Found(raw, order, key).Some? <==> exists k :: k in raw && k in order && EqualFold(k, key))
    ensures Found(raw, order, key).Some? ==> exists k :: k in raw && EqualFold(k, key) && Found(raw, order, key).value == raw[k]
  {
    if key in raw {
      assert EqualFold(key, key);
    } else {
      var i := FirstFolded(raw, order, key);
      if i < |order| {
        assert order[i] in raw && order[i] in order && EqualFold(order[i], key);
      } else {
        forall k | k in raw && k in order ensures !EqualFold(k, key) {
          var j :| 0 <= j < |order| && order[j] == k;
        }
      }
    }
  }

  /** A value a string field cannot take: neither absent, nor null, nor a string. */
  predicate IsMismatch(v: Option<Value>) {
    v.Some? && v.value.NonString?
  }

  /** What a string field gets from the value found: the string itself; null
      and absence leave the zero value "". */
  function FieldText(v: Option<Value>): string {
    if v.Some? && v.value.Str? then v.value.s else ""
  }

  /** Decoding one field: the text of what was found, or the field's key and
      the type found there. */
  function DecodeField(raw: map<string, Value>, order: seq<string>, t: Tunable): (r: Result<string>)
    ensures r.Ok? <==> !IsMismatch(Found(raw, order, Key(t)))
    ensures r.Ok? ==> r.value == FieldText(Found(raw, order, Key(t)))
    ensures r.Err? ==> r.error == DecodeFailure([Mismatch(Key(t), Found(raw, order, Key(t)).value.typeName)])
  {
    match Found(raw, order, Key(t))
    case None => Ok("")
    case Some(Str(s)) => Ok(s)
    case Some(Null) => Ok("")
    case Some(NonString(typeName)) => Err(DecodeFailure([Mismatch(Key(t), typeName)]))
  }

  /** The mismatches one field's decoding contributes. */
  function MismatchesOf(r: Result<string>): seq<Mismatch> {
    if r.Err? && r.error.DecodeFailure? then r.error.mismatches else []
  }

  /** The mismatches of the five fields, in field order. */
  function AllMismatches(raw: map<string, Value>, order: seq<string>): seq<Mismatch> {
    MismatchesOf(DecodeField(raw, order, DelaySeconds)) +
    MismatchesOf(DecodeField(raw, order, MaximumMessageSize)) +
    MismatchesOf(DecodeField(raw, order, MessageRetentionPeriod)) +
    MismatchesOf(DecodeField(raw, order, ReceiveMessageWaitTimeSeconds)) +
    MismatchesOf(DecodeField(raw, order, VisibilityTimeout))
  }

  /** Decodes the parameter map into the five fields, in field order, keeping
      going past a failing field: the result is the five fields when none
      failed, else one error listing every field that failed.  Keys that match
      no field are ignored. */
  function Decode(raw: map<string, Value>, order: seq<string>): Result<QueueParameters> {
    var d := DecodeField(raw, order, DelaySeconds);
    var m := DecodeField(raw, order, MaximumMessageSize);
    var p := DecodeField(raw, order, MessageRetentionPeriod);
    var w := DecodeField(raw, order, ReceiveMessageWaitTimeSeconds);
    var v := DecodeField(raw, order, VisibilityTimeout);
    if d.Ok? && m.Ok? && p.Ok? && w.Ok? && v.Ok? then
      Ok(QueueParameters(d.value, m.value, p.value, w.value, v.value))
    else
      Err(DecodeFailure(AllMismatches(raw, order)))
  }

  /** Decoding succeeds exactly when every field does, and then each field
      holds what decoding it alone gives; a failure carries the mismatches of
      all five fields. */
  lemma {:induction false} DecodeMeaning(raw: map<string, Value>, order: seq<string>)
    ensures Decode(raw, order).Ok? <==> forall t :: DecodeField(raw, order, t).Ok?
    ensures Decode(raw, order).Ok? ==> forall t :: Get(Decode(raw, order).value, t) == DecodeField(raw, order, t).value
    ensures Decode(raw, order).Err? ==> Decode(raw, order).error == DecodeFailure(AllMismatches(raw, order))
  {
    var r := Decode(raw, order);
    forall t | r.Ok? ensures DecodeField(raw, order, t).Ok? && Get(r.value, t) == DecodeField(raw, order, t).value {
      match t
      case DelaySeconds =>
      case MaximumMessageSize =>
      case MessageRetentionPeriod =>
      case ReceiveMessageWaitTimeSeconds =>
      case VisibilityTimeout =>
    }
  }

  /** What one field adds to the error: its key and the type found, exactly
      when it holds a value of the wrong type. */
  lemma MismatchOfField(raw: map<string, Value>, order: seq<string>, t: Tunable)
    ensures var f := Found(raw, order, Key(t));
      MismatchesOf(DecodeField(raw, order, t)) == if IsMismatch(f) then [Mismatch(Key(t), f.value.typeName)] else []
  {
  }

  /** A failed decoding lists every field holding a value of the wrong type,
      under its own key with the type found there, and there is at least one. */
  lemma {:induction false} DecodeFailuresListed(raw: map<string, Value>, order: seq<string>)
    requires Decode(raw, order).Err?
    ensures Decode(raw, order).error.mismatches != []
    ensures forall t :: IsMismatch(Found(raw, order, Key(t))) ==>
      Mismatch(Key(t), Found(raw, order, Key(t)).value.typeName) in Decode(raw, order).error.mismatches
  {
    DecodeMeaning(raw, order);
    var all := AllMismatches(raw, order);
    var bad :| !DecodeField(raw, order, bad).Ok?;
    MismatchOfField(raw, order, bad);
    forall t | IsMismatch(Found(raw, order, Key(t)))
      ensures Mismatch(Key(t), Found(raw, order, Key(t)).value.typeName) in all
    {
      MismatchOfField(raw, order, t);
      match t
      case DelaySeconds =>
      case MaximumMessageSize =>
      case MessageRetentionPeriod =>
      case ReceiveMessageWaitTimeSeconds =>
      case VisibilityTimeout =>
    }
    match bad
    case DelaySeconds =>
    case MaximumMessageSize =>
    case MessageRetentionPeriod =>
    case ReceiveMessageWaitTimeSeconds =>
    case VisibilityTimeout =>
  }

  /** Conversely, every mismatch listed names a field holding a value of the
      wrong type, and the type found there. */
  lemma {:induction false} DecodeFailuresOnlyMismatches(raw: map<string, Value>, order: seq<string>)
    requires Decode(raw, order).Err?
    ensures forall x :: x in Decode(raw, order).error.mismatches ==>
      exists t :: IsMismatch(Found(raw, order, Key(t))) && x == Mismatch(Key(t), Found(raw, order, Key(t)).value.typeName)
  {
    DecodeMeaning(raw, order);
    var a, b, c, d, e := DelaySeconds, MaximumMessageSize, MessageRetentionPeriod, ReceiveMessageWaitTimeSeconds, VisibilityTimeout;
    var ma, mb, mc, md, me := MismatchesOf(DecodeField(raw, order, a)), MismatchesOf(DecodeField(raw, order, b)),
      MismatchesOf(DecodeField(raw, order, c)), MismatchesOf(DecodeField(raw, order, d)), MismatchesOf(DecodeField(raw, order, e));
    var all := AllMismatches(raw, order);
    assert all == ma + mb + mc + md + me;
    forall x | x in all
      ensures exists t :: IsMismatch(Found(raw, order, Key(t))) && x == Mismatch(Key(t), Found(raw, order, Key(t)).value.typeName)
    {
      var t := if x in ma then a else if x in mb then b else if x in mc then c else if x in md then d else e;
      MismatchOfField(raw, order, t);
    }
  }

  /** Some key of `raw` equals `key` under case folding. */
  predicate Folds(raw: map<string, Value>, key: string) {
    exists k :: k in raw && EqualFold(k, key)
  }

  /** The visiting order matters to a field only through an ambiguous map: when
      the key is present exactly, or at most one key case-folds to it, every
      order that visits all the map's keys finds the same value. */
  lemma {:induction false} FoundIgnoresOrder(raw: map<string, Value>, o1: seq<string>, o2: seq<string>, key: string)
    requires forall k :: k in raw ==> k in o1 && k in o2
    requires key in raw || forall k1, k2 :: k1 in raw && k2 in raw && EqualFold(k1, key) && EqualFold(k2, key) ==> k1 == k2
    ensures Found(raw, o1, key) == Found(raw, o2, key)
  {
    if key !in raw {
      var i1, i2 := FirstFolded(raw, o1, key), FirstFolded(raw, o2, key);
      if i1 < |o1| {
        assert o1[i1] in o2;
        assert i2 < |o2|;
        assert o1[i1] == o2[i2];
      }
    }
  }

  /** Decoding an empty map, in any order, gives the zero value. */
  lemma DecodeEmpty(order: seq<string>)
    ensures Decode(map[], order) == Ok(NoParameters)
  {
  }
}
