/**
 * Spend-condition tags as arrays of strings, written and read back (api/cashu/spend_condition.go). The codec of public
 * keys is a parameter.
 */
module TagText {
  import opened Prelude
  import opened Cashu
  import opened SpendConditions
  import opened Text

  datatype Codec = Codec(write: Point -> seq<byte>, read: seq<byte> -> Option<Point>)

  datatype TagError = MalformedTag | InvalidTagName | InvalidSigFlag | BadHex | BadPoint | BadNumber

  // ----- writing -----

  function FlagName(f: SigFlag): string
  {
    match f
    case SigAll => "SIG_ALL"
    case SigInputs => "SIG_INPUTS"
    case SigUnset => ""
  }

  function KeyTexts(codec: Codec, keys: seq<Point>): seq<string>
  {
    seq(|keys|, i requires 0 <= i < |keys| => Hex(codec.write(keys[i])))
  }

  function FlagTag(f: SigFlag): seq<seq<string>>
  {
    if f == SigUnset then [] else [["sigflag", FlagName(f)]]
  }

  function NumberTag(name: string, n: nat): seq<seq<string>>
  {
    if n == 0 then [] else [[name, Decimal(n)]]
  }

  function KeysTag(codec: Codec, name: string, keys: seq<Point>): seq<seq<string>>
  {
    if keys == [] then [] else [[name] + KeyTexts(codec, keys)]
  }

  function Printed(codec: Codec, t: Tags): seq<seq<string>>
  {
    FlagTag(t.sigflag) + KeysTag(codec, "pubkeys", t.pubkeys) + NumberTag("n_sigs", t.nSigs)
    + NumberTag("locktime", t.locktime) + KeysTag(codec, "refund", t.refund) + NumberTag("n_sigs_refund", t.nSigsRefund)
  }

  /** One tag of keys, built key by key. */
  method KeysTagText(codec: Codec, name: string, keys: seq<Point>) returns (tag: seq<string>)
    ensures tag == [name] + KeyTexts(codec, keys)
  {
    tag := [name];
    for i := 0 to |keys|
      invariant tag == [name] + KeyTexts(codec, keys[..i])
    {
      assert KeyTexts(codec, keys[..i + 1]) == KeyTexts(codec, keys[..i]) + [Hex(codec.write(keys[i]))];
      tag := tag + [Hex(codec.write(keys[i]))];
    }
    assert keys[..|keys|] == keys;
  }

  method AddNumber(so: seq<seq<string>>, name: string, n: nat) returns (result: seq<seq<string>>)
    ensures result == so + NumberTag(name, n)
  {
    result := so;
    if n > 0 {
      result := result + [[name, Decimal(n)]];
    }
  }

  method AddKeys(codec: Codec, so: seq<seq<string>>, name: string, keys: seq<Point>) returns (result: seq<seq<string>>)
    ensures result == so + KeysTag(codec, name, keys)
  {
    result := so;
    if |keys| > 0 {
      var tag := KeysTagText(codec, name, keys);
      result := result + [tag];
    }
  }

  /** TagsInfo.MarshalJSON up to the JSON text: what is unset or zero is left out. */
  method MarshalTags(codec: Codec, t: Tags) returns (result: seq<seq<string>>)
    ensures result == Printed(codec, t)
  {
    hide KeysTag, NumberTag, FlagName;
    result := [];
    if t.sigflag != SigUnset {
      result := result + [["sigflag", FlagName(t.sigflag)]];
    }
    assert result == FlagTag(t.sigflag);
    hide FlagTag;
    result := AddKeys(codec, result, "pubkeys", t.pubkeys);
    result := AddNumber(result, "n_sigs", t.nSigs);
    result := AddNumber(result, "locktime", t.locktime);
    result := AddKeys(codec, result, "refund", t.refund);
    result := AddNumber(result, "n_sigs_refund", t.nSigsRefund);
  }

  // ----- reading -----

  datatype TagName = FlagTagName | PubkeysName | NSigsName | LocktimeName | RefundName | NSigsRefundName

  function TagFromString(s: string): Option<TagName>
  {
    match s
    case "sigflag" => Some(FlagTagName)
    case "pubkeys" => Some(PubkeysName)
    case "n_sigs" => Some(NSigsName)
    case "locktime" => Some(LocktimeName)
    case "refund" => Some(RefundName)
    case "n_sigs_refund" => Some(NSigsRefundName)
    case _ => None
  }

  function NameOf(n: TagName): string
  {
    match n
    case FlagTagName => "sigflag"
    case PubkeysName => "pubkeys"
    case NSigsName => "n_sigs"
    case LocktimeName => "locktime"
    case RefundName => "refund"
    case NSigsRefundName => "n_sigs_refund"
  }

  /** Six names are read, and two flags; any other text is refused. */
  lemma NamesAreRead(s: string, n: TagName, f: SigFlag)
    ensures TagFromString(s) == Some(n) <==> s == NameOf(n)
    ensures SigFlagFromString(s) == Some(f) <==> f != SigUnset && s == FlagName(f)
  {
  }

  function SigFlagFromString(s: string): Option<SigFlag>
  {
    match s
    case "SIG_ALL" => Some(SigAll)
    case "SIG_INPUTS" => Some(SigInputs)
    case _ => None
  }

  function ReadKey(codec: Codec, s: string): Result<Point, TagError>
  {
    match DecodeHex(s)
    case None => Err(BadHex)
    case Some(bytes) =>
      match codec.read(bytes)
      case None => Err(BadPoint)
      case Some(p) => Ok(p)
  }

  /** The keys of one tag, first failure first. */
  function ReadKeys(codec: Codec, texts: seq<string>): Result<seq<Point>, TagError>
  {
    if texts == [] then Ok([])
    else
      match ReadKeys(codec, texts[..|texts| - 1])
      case Err(e) => Err(e)
      case Ok(keys) =>
        match ReadKey(codec, texts[|texts| - 1])
        case Err(e) => Err(e)
        case Ok(p) => Ok(keys + [p])
  }

  function WithNumber(t: Tags, name: TagName, n: nat): Tags
  {
    match name
    case NSigsName => t.(nSigs := n)
    case LocktimeName => t.(locktime := n)
    case NSigsRefundName => t.(nSigsRefund := n)
    case _ => t
  }

  /** What one tag does to the tags read so far: numbers and the flag are set, keys are appended. */
  function ReadTag(codec: Codec, t: Tags, tag: seq<string>): Result<Tags, TagError>
  {
    if |tag| < 2 then Err(MalformedTag)
    else
      match TagFromString(tag[0])
      case None => Err(InvalidTagName)
      case Some(name) =>
        if name == PubkeysName || name == RefundName then
          match ReadKeys(codec, tag[1..])
          case Err(e) => Err(e)
          case Ok(keys) =>
            Ok(if name == PubkeysName then t.(pubkeys := t.pubkeys + keys) else t.(refund := t.refund + keys))
        else if |tag| != 2 then Err(MalformedTag)
        else if name == FlagTagName then
          match SigFlagFromString(tag[1])
          case None => Err(InvalidSigFlag)
          case Some(f) => Ok(t.(sigflag := f))
        else
          match ParseUint(tag[1], TWO_64)
          case None => Err(BadNumber)
          case Some(n) => Ok(WithNumber(t, name, n))
  }

  function ReadTags(codec: Codec, t: Tags, tags: seq<seq<string>>): Result<Tags, TagError>
  {
    if tags == [] then Ok(t)
    else
      match ReadTags(codec, t, tags[..|tags| - 1])
      case Err(e) => Err(e)
      case Ok(before) => ReadTag(codec, before, tags[|tags| - 1])
  }

  const NO_TAGS := Tags(SigUnset, [], [], 0, 0, 0)

  lemma {:induction false} ReadKeysFails(codec: Codec, texts: seq<string>, n: nat)
    requires n <= |texts| && ReadKeys(codec, texts[..n]).Err?
    ensures ReadKeys(codec, texts) == Err(ReadKeys(codec, texts[..n]).error)
    decreases |texts|
  {
    if n < |texts| {
      assert texts[..|texts| - 1][..n] == texts[..n];
      ReadKeysFails(codec, texts[..|texts| - 1], n);
    } else {
      assert texts[..n] == texts;
    }
  }

  lemma {:induction false} ReadTagsFails(codec: Codec, t: Tags, tags: seq<seq<string>>, n: nat)
    requires n <= |tags| && ReadTags(codec, t, tags[..n]).Err?
    ensures ReadTags(codec, t, tags) == Err(ReadTags(codec, t, tags[..n]).error)
    decreases |tags|
  {
    if n < |tags| {
      assert tags[..|tags| - 1][..n] == tags[..n];
      ReadTagsFails(codec, t, tags[..|tags| - 1], n);
    } else {
      assert tags[..n] == tags;
    }
  }

  /** The inner loop: each key is appended to the list its tag names. */
  method AppendKeys(codec: Codec, texts: seq<string>, old_: seq<Point>) returns (r: Result<seq<Point>, TagError>)
    ensures r == match ReadKeys(codec, texts) case Ok(keys) => Ok(old_ + keys) case Err(e) => Err(e)
  {
    var keys := old_;
    for i := 0 to |texts|
      invariant ReadKeys(codec, texts[..i]).Ok? && keys == old_ + ReadKeys(codec, texts[..i]).value
    {
      assert texts[..i + 1][..i] == texts[..i];
      var key := ReadKey(codec, texts[i]);
      if key.Err? {
        ReadKeysFails(codec, texts, i + 1);
        return Err(key.error);
      }
      keys := keys + [key.value];
    }
    assert texts[..|texts|] == texts;
    r := Ok(keys);
  }

  /** TagsInfo.UnmarshalJSON from the parsed arrays on. */
  method UnmarshalTags(codec: Codec, arrays: seq<seq<string>>) returns (r: Result<Tags, TagError>)
    ensures r == ReadTags(codec, NO_TAGS, arrays)
  {
    var tags := NO_TAGS;
    for i := 0 to |arrays|
      invariant ReadTags(codec, NO_TAGS, arrays[..i]) == Ok(tags)
    {
      assert arrays[..i + 1][..i] == arrays[..i];
      var next := UnmarshalTag(codec, tags, arrays[i]);
      if next.Err? {
        ReadTagsFails(codec, NO_TAGS, arrays, i + 1);
        return Err(next.error);
      }
      tags := next.value;
    }
    assert arrays[..|arrays|] == arrays;
    r := Ok(tags);
  }

  method UnmarshalTag(codec: Codec, t: Tags, tag: seq<string>) returns (r: Result<Tags, TagError>)
    ensures r == ReadTag(codec, t, tag)
    ensures r.Ok? ==> |tag| >= 2 && exists n :: tag[0] == NameOf(n)
    ensures r.Ok? && tag[0] == "sigflag" ==> r.value.sigflag != SigUnset && tag[1] == FlagName(r.value.sigflag)
  {
    if |tag| >= 2 && TagFromString(tag[0]).Some? {
      NamesAreRead(tag[0], TagFromString(tag[0]).value, SigUnset);
      if SigFlagFromString(tag[1]).Some? {
        NamesAreRead(tag[1], FlagTagName, SigFlagFromString(tag[1]).value);
      }
    }
    assert TagFromString("sigflag") == Some(FlagTagName);
    hide ReadKeys, ParseUint, TagFromString, SigFlagFromString, NameOf, FlagName;
    if |tag| < 2 {
      return Err(MalformedTag);
    }
    var name := TagFromString(tag[0]);
    if name.None? {
      return Err(InvalidTagName);
    }
    match name.value {
      case PubkeysName =>
        var keys := AppendKeys(codec, tag[1..], t.pubkeys);
        return match keys case Ok(k) => Ok(t.(pubkeys := k)) case Err(e) => Err(e);
      case RefundName =>
        var keys := AppendKeys(codec, tag[1..], t.refund);
        return match keys case Ok(k) => Ok(t.(refund := k)) case Err(e) => Err(e);
      case FlagTagName =>
        if |tag| != 2 {
          return Err(MalformedTag);
        }
        var f := SigFlagFromString(tag[1]);
        return if f.None? then Err(InvalidSigFlag) else Ok(t.(sigflag := f.value));
      case number =>
        if |tag| != 2 {
          return Err(MalformedTag);
        }
        var n := ParseUint(tag[1], TWO_64);
        return if n.None? then Err(BadNumber) else Ok(WithNumber(t, number, n.value));
    }
  }

  // ----- the round trip -----

  ghost predicate Faithful(codec: Codec)
  {
    forall p: Point :: codec.read(codec.write(p)) == Some(p)
  }

  lemma {:induction false} KeysRoundTrip(codec: Codec, keys: seq<Point>)
    requires Faithful(codec)
    ensures ReadKeys(codec, KeyTexts(codec, keys)) == Ok(keys)
  {
    if keys != [] {
      var n := |keys| - 1;
      KeysRoundTrip(codec, keys[..n]);
      assert KeyTexts(codec, keys)[..n] == KeyTexts(codec, keys[..n]);
      HexRoundTrip(codec.write(keys[n]));
      assert keys == keys[..n] + [keys[n]];
    }
  }

  lemma {:induction false} ReadTagsAppend(codec: Codec, t: Tags, a: seq<seq<string>>, b: seq<seq<string>>)
    requires ReadTags(codec, t, a).Ok?
    ensures ReadTags(codec, t, a + b) == ReadTags(codec, ReadTags(codec, t, a).value, b)
  {
    if b == [] {
      assert a + b == a;
    } else {
      var n := |b| - 1;
      ReadTagsAppend(codec, t, a, b[..n]);
      assert (a + b)[..|a| + n] == a + b[..n];
    }
  }

  lemma ReadOne(codec: Codec, t: Tags, tag: seq<string>)
    ensures ReadTags(codec, t, [tag]) == ReadTag(codec, t, tag)
    ensures ReadTags(codec, t, []) == Ok(t)
  {
  }

  lemma FlagRead(codec: Codec, t: Tags, f: SigFlag)
    requires t.sigflag == SigUnset
    ensures ReadTags(codec, t, FlagTag(f)) == Ok(t.(sigflag := f))
  {
  }

  lemma NumberRead(codec: Codec, t: Tags, name: string, n: nat)
    requires n < TWO_64 && name in ["n_sigs", "locktime", "n_sigs_refund"]
    requires WithNumber(t, TagFromString(name).value, 0) == t
    ensures ReadTags(codec, t, NumberTag(name, n)) == Ok(WithNumber(t, TagFromString(name).value, n))
  {
    ReadOne(codec, t, [name, Decimal(n)]);
    DecimalRoundTrip(n, TWO_64);
    hide Decimal, ParseUint;
  }

  lemma PubkeysRead(codec: Codec, t: Tags, keys: seq<Point>)
    requires Faithful(codec) && t.pubkeys == []
    ensures ReadTags(codec, t, KeysTag(codec, "pubkeys", keys)) == Ok(t.(pubkeys := keys))
  {
    var tag := ["pubkeys"] + KeyTexts(codec, keys);
    ReadOne(codec, t, tag);
    assert tag[1..] == KeyTexts(codec, keys) && |tag| == 1 + |keys| && t.pubkeys + keys == keys;
    KeysRoundTrip(codec, keys);
    hide ReadKeys, KeyTexts;
  }

  lemma RefundRead(codec: Codec, t: Tags, keys: seq<Point>)
    requires Faithful(codec) && t.refund == []
    ensures ReadTags(codec, t, KeysTag(codec, "refund", keys)) == Ok(t.(refund := keys))
  {
    var tag := ["refund"] + KeyTexts(codec, keys);
    ReadOne(codec, t, tag);
    assert tag[1..] == KeyTexts(codec, keys) && |tag| == 1 + |keys| && t.refund + keys == keys;
    KeysRoundTrip(codec, keys);
    hide ReadKeys, KeyTexts;
  }

  /** Writing tags and reading them back gives the same flag, keys, refund keys and numbers. */
  lemma TagsRoundTrip(codec: Codec, t: Tags)
    requires Faithful(codec) && t.nSigs < TWO_64 && t.locktime < TWO_64 && t.nSigsRefund < TWO_64
    ensures ReadTags(codec, NO_TAGS, Printed(codec, t)) == Ok(t)
  {
    hide ReadTags, FlagTag, KeysTag, NumberTag, Faithful;
    var t1 := NO_TAGS.(sigflag := t.sigflag);
    var t2 := t1.(pubkeys := t.pubkeys);
    var t3 := t2.(nSigs := t.nSigs);
    var t4 := t3.(locktime := t.locktime);
    var t5 := t4.(refund := t.refund);
    FlagRead(codec, NO_TAGS, t.sigflag);
    PubkeysRead(codec, t1, t.pubkeys);
    NumberRead(codec, t2, "n_sigs", t.nSigs);
    NumberRead(codec, t3, "locktime", t.locktime);
    RefundRead(codec, t4, t.refund);
    NumberRead(codec, t5, "n_sigs_refund", t.nSigsRefund);
    var a, b := FlagTag(t.sigflag), KeysTag(codec, "pubkeys", t.pubkeys);
    var c, d := NumberTag("n_sigs", t.nSigs), NumberTag("locktime", t.locktime);
    var e, f := KeysTag(codec, "refund", t.refund), NumberTag("n_sigs_refund", t.nSigsRefund);
    ReadTagsAppend(codec, NO_TAGS, a, b);
    ReadTagsAppend(codec, NO_TAGS, a + b, c);
    ReadTagsAppend(codec, NO_TAGS, a + b + c, d);
    ReadTagsAppend(codec, NO_TAGS, a + b + c + d, e);
    ReadTagsAppend(codec, NO_TAGS, a + b + c + d + e, f);
  }
}
