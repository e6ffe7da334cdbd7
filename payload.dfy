/** The arguments every facade method hands to the client's request routine
    (the form fields, the file parts and the query parameters), and the two
    building steps the facades share: the conditional insertion of an
    optional string argument and the placement of an image argument. */
module Payload {

  import opened Common

  /** A form-field value: the facades send strings and, for a few numeric
      settings, integers. */
  datatype Value = Text(text: string) | Number(number: int)

  /** The `data` dict: field name to value. */
  type Data = map<string, Value>

  /** An opened, readable file object (its contents are not modelled). */
  datatype Handle = Handle(id: nat)

  /** The `files` dict: field name to file object. */
  type Files = map<string, Handle>

  /** One call of `_make_request(method, endpoint, data, files, params)`. */
  datatype Request = Request(
    verb: string,
    endpoint: string,
    data: Data,
    files: Option<Files>,
    params: Option<Data>)

  /** A POST to `endpoint` whose only payload is the form data `data`. */
  function FormPost(endpoint: string, data: Data): Request
  {
    Request("POST", endpoint, data, None, None)
  }

  // ---------------------------------------------------------------------
  // Optional string arguments: `if arg: data[key] = arg`
  // ---------------------------------------------------------------------

  /** One statement `if arg: data[key] = arg` of a facade. */
  datatype Field = Field(key: string, arg: Option<string>)

  /** The effect of one field statement on the dict. */
  function Step(data: Data, f: Field): Data
  {
    if Truthy(f.arg) then data[f.key := Text(f.arg.value)] else data
  }

  /** The dict a facade ends with when it starts from `seed` and runs the
      field statements `fs` one after the other. */
  function Fill(seed: Data, fs: seq<Field>): Data
    decreases |fs|
  {
    if fs == [] then seed else Fill(Step(seed, fs[0]), fs[1..])
  }

  /** The single entry a statement contributes, read declaratively: its argument's text under its key when the argument is truthy. */
  function Entry(key: string, arg: Option<string>): Data
  {
    if Truthy(arg) then map[key := Text(arg.value)] else map[]
  }

  /** Two statements run one after the other. */
  lemma FillTwo(seed: Data, f0: Field, f1: Field)
    ensures Fill(seed, [f0, f1]) == Step(Step(seed, f0), f1)
  {
    assert [f0, f1][1..] == [f1] && [f1][1..] == [];
    assert Fill(Step(seed, f0), [f1]) == Fill(Step(Step(seed, f0), f1), []);
  }

  /** Three statements run one after the other. */
  lemma FillThree(seed: Data, f0: Field, f1: Field, f2: Field)
    ensures Fill(seed, [f0, f1, f2]) == Step(Step(Step(seed, f0), f1), f2)
  {
    assert [f0, f1, f2][1..] == [f1, f2];
    FillTwo(Step(seed, f0), f1, f2);
  }

  /** The entries the field statements contribute, read declaratively: every
      truthy argument under its key, a later statement winning over an earlier
      one with the same key. */
  function Assigned(fs: seq<Field>): Data
    decreases |fs|
  {
    if fs == [] then map[]
    else Entry(fs[0].key, fs[0].arg) + Assigned(fs[1..])
  }

  /** No two field statements write the same key. */
  predicate DistinctKeys(fs: seq<Field>)
  {
    forall i, j :: 0 <= i < j < |fs| ==> fs[i].key != fs[j].key
  }

  /** The keys the field statements with a truthy argument write. */
  function TruthyKeys(fs: seq<Field>): set<string>
  {
    set f | f in fs && Truthy(f.arg) :: f.key
  }

  /** Overlaying maps is associative. */
  lemma OverlayAssociates(a: Data, b: Data, c: Data)
    ensures (a + b) + c == a + (b + c)
  {
  }

  /** Running the statements one by one is the same as overlaying the seed
      with their declarative contribution. */
  lemma {:induction false} FillIsOverlay(seed: Data, fs: seq<Field>)
    ensures Fill(seed, fs) == seed + Assigned(fs)
    decreases |fs|
  {
    if fs == [] {
      assert seed + map[] == seed;
    } else {
      var f, rest := fs[0], fs[1..];
      var single := Entry(f.key, f.arg);
      calc {
        Fill(seed, fs);
        Fill(Step(seed, f), rest);
        { FillIsOverlay(Step(seed, f), rest); }
        Step(seed, f) + Assigned(rest);
        { assert Step(seed, f) == seed + single; }
        (seed + single) + Assigned(rest);
        { OverlayAssociates(seed, single, Assigned(rest)); }
        seed + (single + Assigned(rest));
      }
    }
  }

  /** A key is contributed exactly when some statement for it has a truthy
      argument. */
  lemma {:induction false} AssignedKeys(fs: seq<Field>, k: string)
    ensures k in Assigned(fs) <==> exists f :: f in fs && f.key == k && Truthy(f.arg)
    decreases |fs|
  {
    if fs != [] {
      AssignedKeys(fs[1..], k);
      assert fs == [fs[0]] + fs[1..];
      assert forall g :: g in fs <==> g == fs[0] || g in fs[1..];
    }
  }

  /** With distinct keys, every truthy argument is sent as it was given. */
  lemma {:induction false} AssignedValue(fs: seq<Field>, i: nat)
    requires DistinctKeys(fs)
    requires i < |fs| && Truthy(fs[i].arg)
    ensures fs[i].key in Assigned(fs)
    ensures Assigned(fs)[fs[i].key] == Text(fs[i].arg.value)
    decreases |fs|
  {
    var f, rest := fs[0], fs[1..];
    if i == 0 {
      assert f.key !in Assigned(rest) by {
        forall j | 0 <= j < |rest|
          ensures rest[j].key != f.key
        {
          assert fs[j + 1] == rest[j];
        }
        AssignedKeys(rest, f.key);
      }
    } else {
      assert DistinctKeys(rest) by {
        forall a, b | 0 <= a < b < |rest|
          ensures rest[a].key != rest[b].key
        {
          assert fs[a + 1] == rest[a] && fs[b + 1] == rest[b];
        }
      }
      assert fs[i] == rest[i - 1];
      AssignedValue(rest, i - 1);
    }
  }

  /** When every optional argument is falsy, the facade sends its seed
      unchanged (no key is ever written as `None` or `""`). */
  lemma {:induction false} FillAllFalsy(seed: Data, fs: seq<Field>)
    requires forall i :: 0 <= i < |fs| ==> !Truthy(fs[i].arg)
    ensures Fill(seed, fs) == seed
    decreases |fs|
  {
    if fs != [] {
      assert forall i :: 0 <= i < |fs| - 1 ==> fs[1..][i] == fs[i + 1];
      FillAllFalsy(Step(seed, fs[0]), fs[1..]);
    }
  }

  /** The key set a facade sends: its seed's keys and the keys of its truthy
      optional arguments, nothing else. */
  lemma FillKeys(seed: Data, fs: seq<Field>)
    ensures Fill(seed, fs).Keys == seed.Keys + TruthyKeys(fs)
  {
    FillIsOverlay(seed, fs);
    forall k
      ensures k in Assigned(fs) <==> k in TruthyKeys(fs)
    {
      AssignedKeys(fs, k);
    }
  }

  /** An entry of the seed whose key no statement writes reaches the request
      unchanged. */
  lemma KeepsSeed(seed: Data, fs: seq<Field>, k: string)
    requires k in seed
    requires forall f :: f in fs ==> f.key != k
    ensures k in Fill(seed, fs) && Fill(seed, fs)[k] == seed[k]
  {
    FillIsOverlay(seed, fs);
    AssignedKeys(fs, k);
  }

  /** What a facade promises about the dict it sends when it starts from
      `seed` and tests the optional arguments `fs`: exactly the seed's keys and
      the truthy arguments' keys are present, every truthy argument is sent as
      given, and every seed entry no statement writes is sent as seeded. */
  predicate Carries(data: Data, seed: Data, fs: seq<Field>)
  {
    && data.Keys == seed.Keys + TruthyKeys(fs)
    && (forall f :: f in fs && Truthy(f.arg) ==> data[f.key] == Text(f.arg.value))
    && (forall k :: k in seed && (forall f :: f in fs ==> f.key != k) ==> data[k] == seed[k])
  }

  /** Running distinct-keyed field statements keeps that promise. */
  lemma FillCarries(seed: Data, fs: seq<Field>)
    requires DistinctKeys(fs)
    ensures Carries(Fill(seed, fs), seed, fs)
  {
    FillKeys(seed, fs);
    forall f | f in fs && Truthy(f.arg)
      ensures Fill(seed, fs)[f.key] == Text(f.arg.value)
    {
      var i :| 0 <= i < |fs| && fs[i] == f;
      AssignedValue(fs, i);
      FillIsOverlay(seed, fs);
    }
    forall k | k in seed && (forall f :: f in fs ==> f.key != k)
      ensures Fill(seed, fs)[k] == seed[k]
    {
      KeepsSeed(seed, fs, k);
    }
  }

  /** The key a statement with argument `arg` contributes: `key` when the
      argument is truthy, nothing otherwise. */
  function OptKey(key: string, arg: Option<string>): set<string>
  {
    if Truthy(arg) then {key} else {}
  }

  /** A truthy argument is in `data` under its key, with its text. */
  predicate SentAs(data: Data, key: string, arg: Option<string>)
  {
    Truthy(arg) ==> key in data && data[key] == Text(arg.value)
  }

  /** The statement `if arg: data[key] = arg`. The ghost `pending` lists the
      statements the caller still has to run, starting with this one; the
      last ensures says that running this statement and then the rest gives
      the same dict as running all of them from the old one. */
  method SetIfTruthy(data: Data, ghost pending: seq<Field>, key: string, arg: Option<string>)
    returns (data': Data, ghost pending': seq<Field>)
    requires |pending| > 0 && pending[0] == Field(key, arg)
    ensures data' == Step(data, Field(key, arg))
    ensures pending' == pending[1..]
    ensures Fill(data', pending') == Fill(data, pending)
  {
    data' := data;
    if Truthy(arg) {
      data' := data'[key := Text(arg.value)];
    }
    pending' := pending[1..];
  }

  // ---------------------------------------------------------------------
  // Image arguments
  // ---------------------------------------------------------------------

  /** An image argument: a Python `str` (a URL when its type flag is
      'link'), an object with a `read` method, or any other object. */
  datatype Image = Str(s: string) | Readable(handle: Handle) | Other

  /** Python truthiness of an image argument: an empty string and `None` are
      falsy; a file object is truthy. `Other` stands for `None`. */
  predicate ImageTruthy(image: Image)
  {
    (image.Str? && image.s != "") || image.Readable?
  }

  /** Where the selector `if isinstance(image, str) and image_type == 'link'
      … elif hasattr(image, 'read') …` puts an image. */
  datatype Placement = AsField(url: string) | AsFile(handle: Handle) | Nowhere

  /** The selector: a string with type 'link' becomes a form field, a
      readable object becomes a file part whatever its type flag, and
      anything else is dropped. */
  function Place(image: Image, imageType: string): (p: Placement)
    ensures p.AsField? <==> image.Str? && imageType == "link"
    ensures p.AsFile? <==> image.Readable?
    ensures p.AsField? ==> p.url == image.s
    ensures p.AsFile? ==> p.handle == image.handle
  {
    match image
    case Str(s) => if imageType == "link" then AsField(s) else Nowhere
    case Readable(h) => AsFile(h)
    case Other => Nowhere
  }

  /** The form dict after the selector ran for `field`. */
  function PlaceField(data: Data, field: string, p: Placement): Data
  {
    if p.AsField? then data[field := Text(p.url)] else data
  }

  /** The files dict after the selector ran for `field`. */
  function PlaceFile(files: Files, field: string, p: Placement): Files
  {
    if p.AsFile? then files[field := p.handle] else files
  }

  /** The selector never puts one image in both dicts. */
  lemma NeverBoth(data: Data, files: Files, field: string, image: Image, imageType: string)
    requires field !in data && field !in files
    ensures !(field in PlaceField(data, field, Place(image, imageType))
              && field in PlaceFile(files, field, Place(image, imageType)))
  {
  }

  /** `files if files else None`: an empty files dict is not passed at all. */
  function FilesArg(files: Files): (r: Option<Files>)
    ensures r.None? <==> files == map[]
    ensures r.Some? ==> r.value == files
  {
    if files == map[] then None else Some(files)
  }

  /** The selector as the facades run it, on the two dicts. */
  method SelectImage(data: Data, files: Files, field: string, image: Image, imageType: string)
    returns (data': Data, files': Files)
    ensures data' == PlaceField(data, field, Place(image, imageType))
    ensures files' == PlaceFile(files, field, Place(image, imageType))
    ensures image.Str? && imageType == "link" ==> data' == data[field := Text(image.s)] && files' == files
    ensures image.Readable? ==> files' == files[field := image.handle] && data' == data
    ensures !(image.Str? && imageType == "link") && !image.Readable? ==> data' == data && files' == files
  {
    data', files' := data, files;
    if image.Str? && imageType == "link" {
      data' := data'[field := Text(image.s)];
    } else if image.Readable? {
      files' := files'[field := image.handle];
    }
  }
}
