/** The project record kept in `.cruft.json` (the `CruftConfig` dataclass). The file's
    parsed content is a dict; encoding it as JSON text is not part of this model. */
module Config {
  import opened Base
  import opened Json

  const CruftFile := ".cruft.json"

  datatype CruftConfig = CruftConfig(
    template: string,
    commit: string,
    context: Dict,
    checkout: Option<string>,
    skip: seq<string>)

  /** The JSON list written for a list of strings. */
  function StrArray(xs: seq<string>): (items: seq<Value>)
    ensures |items| == |xs|
    ensures forall i :: 0 <= i < |xs| ==> items[i] == Str(xs[i])
  {
    if xs == [] then [] else [Str(xs[0])] + StrArray(xs[1..])
  }

  /** Reads a JSON list of strings back; None when some item is not a string. */
  function StrList(items: seq<Value>): (r: Option<seq<string>>)
    ensures r.Some? <==> forall i :: 0 <= i < |items| ==> items[i].Str?
    ensures r.Some? ==> |r.value| == |items| && forall i :: 0 <= i < |items| ==> items[i] == Str(r.value[i])
  {
    if items == [] then Some([])
    else if !items[0].Str? then None
    else match StrList(items[1..])
      case None => None
      case Some(rest) => Some([items[0].s] + rest)
  }

  /** The `context` entry: a JSON object, `{}` when absent. */
  function ContextOf(v: Option<Value>): (r: Result<Dict>)
    ensures r.Success? <==> v.None? || v.value.Object?
    ensures v.None? ==> r == Success([])
    ensures v.Some? && r.Success? ==> v.value == Object(r.value)
    ensures r.Failure? ==> r.error == TypeMismatch("context")
  {
    match v
    case None => Success([])
    case Some(Object(entries)) => Success(entries)
    case Some(_) => Failure(TypeMismatch("context"))
  }

  /** The `checkout` entry: a branch name, None when absent or null. */
  function CheckoutOf(v: Option<Value>): (r: Result<Option<string>>)
    ensures r.Success? <==> v.None? || v.value.Null? || v.value.Str?
    ensures r.Success? ==> (r.value.None? <==> v.None? || v.value.Null?)
    ensures r.Success? && r.value.Some? ==> v == Some(Str(r.value.value))
    ensures r.Failure? ==> r.error == TypeMismatch("checkout")
  {
    match v
    case None => Success(None)
    case Some(Null) => Success(None)
    case Some(Str(name)) => Success(Some(name))
    case Some(_) => Failure(TypeMismatch("checkout"))
  }

  /** The `skip` entry: a list of strings, `[]` when absent. */
  function SkipOf(v: Option<Value>): (r: Result<seq<string>>)
    ensures r.Success? <==> v.None? || (v.value.Array? && forall i :: 0 <= i < |v.value.items| ==> v.value.items[i].Str?)
    ensures v.None? ==> r == Success([])
    ensures v.Some? && r.Success? ==> v.value == Array(StrArray(r.value))
    ensures r.Failure? ==> r.error == TypeMismatch("skip")
  {
    match v
    case None => Success([])
    case Some(Array(items)) => (match StrList(items) case Some(xs) => Success(xs) case None => Failure(TypeMismatch("skip")))
    case Some(_) => Failure(TypeMismatch("skip"))
  }

  /** The record once `template` and `commit` were found. */
  function Fields(template: Value, commit: Value, context: Result<Dict>, checkout: Result<Option<string>>, skip: Result<seq<string>>): (r: Result<CruftConfig>)
    ensures r.Success? <==> template.Str? && commit.Str? && context.Success? && checkout.Success? && skip.Success?
    ensures r.Success? ==>
      && template == Str(r.value.template) && commit == Str(r.value.commit)
      && r.value.context == context.value && r.value.checkout == checkout.value && r.value.skip == skip.value
    ensures !template.Str? ==> r == Failure(TypeMismatch("template"))
    ensures template.Str? && !commit.Str? ==> r == Failure(TypeMismatch("commit"))
  {
    if !template.Str? then Failure(TypeMismatch("template"))
    else if !commit.Str? then Failure(TypeMismatch("commit"))
    else if context.Failure? then Failure(context.error)
    else if checkout.Failure? then Failure(checkout.error)
    else if skip.Failure? then Failure(skip.error)
    else Success(CruftConfig(template.s, commit.s, context.value, checkout.value, skip.value))
  }

  /** `CruftConfig.load`: `file` is the parsed record, None when `.cruft.json` does not exist.
      `template` and `commit` are required; `context` defaults to `{}`, `checkout` to None
      (also for a JSON null) and `skip` to `[]`. */
  function Load(file: Option<Dict>): (r: Result<CruftConfig>)
    ensures file.None? ==> r == Failure(FileNotFound(CruftFile))
    ensures file.Some? && "template" !in Keys(file.value) ==> r == Failure(KeyError("template"))
    ensures file.Some? && "template" in Keys(file.value) && "commit" !in Keys(file.value) ==> r == Failure(KeyError("commit"))
    ensures file.Some? && "template" in Keys(file.value) && "commit" in Keys(file.value) && !Get(file.value, "template").value.Str? ==>
      r == Failure(TypeMismatch("template"))
    ensures r.Success? ==>
      && Get(file.value, "template") == Some(Str(r.value.template))
      && Get(file.value, "commit") == Some(Str(r.value.commit))
      && ("context" !in Keys(file.value) ==> r.value.context == [])
      && ("checkout" !in Keys(file.value) ==> r.value.checkout == None)
      && ("skip" !in Keys(file.value) ==> r.value.skip == [])
  {
    match file
    case None => Failure(FileNotFound(CruftFile))
    case Some(data) =>
      match (Get(data, "template"), Get(data, "commit"))
      case (None, _) => Failure(KeyError("template"))
      case (_, None) => Failure(KeyError("commit"))
      case (Some(template), Some(commit)) =>
        Fields(template, commit, ContextOf(Get(data, "context")), CheckoutOf(Get(data, "checkout")), SkipOf(Get(data, "skip")))
  }

  /** The three entries `save` always writes. */
  function Required(c: CruftConfig): (data: Dict)
    ensures UniqueKeys(data)
    ensures Get(data, "template") == Some(Str(c.template))
    ensures Get(data, "commit") == Some(Str(c.commit))
    ensures Get(data, "context") == Some(Object(c.context))
    ensures Get(data, "checkout") == None && Get(data, "skip") == None
    ensures Keys(data) == ["template", "commit", "context"]
  {
    [("template", Str(c.template)), ("commit", Str(c.commit)), ("context", Object(c.context))]
  }

  /** Writes `k` only when there is a value for it. */
  function SetIfPresent(d: Dict, k: string, o: Option<Value>): (r: Dict)
    ensures UniqueKeys(d) ==> UniqueKeys(r)
    ensures Get(r, k) == if o.Some? then o else Get(d, k)
    ensures forall k' :: k' != k ==> Get(r, k') == Get(d, k')
    ensures forall k' :: k' in Keys(r) ==> k' in Keys(d) || k' == k
  {
    if o.Some? then Set(d, k, o.value) else d
  }

  /** The five entries `save` knows about. */
  predicate SavedKey(k: string) {
    k == "template" || k == "commit" || k == "context" || k == "checkout" || k == "skip"
  }

  /** `CruftConfig.save`: the dict written to `.cruft.json`. `template`, `commit` and `context`
      are always written; `checkout` only when it is not None, `skip` only when it is non-empty. */
  function Save(c: CruftConfig): (data: Dict)
    ensures UniqueKeys(data)
    ensures Get(data, "template") == Some(Str(c.template))
    ensures Get(data, "commit") == Some(Str(c.commit))
    ensures Get(data, "context") == Some(Object(c.context))
    ensures Get(data, "checkout") == if c.checkout.Some? then Some(Str(c.checkout.value)) else None
    ensures Get(data, "skip") == if c.skip != [] then Some(Array(StrArray(c.skip))) else None
  {
    var checkout := if c.checkout.Some? then Some(Str(c.checkout.value)) else None;
    var skip := if c.skip != [] then Some(Array(StrArray(c.skip))) else None;
    SetIfPresent(SetIfPresent(Required(c), "checkout", checkout), "skip", skip)
  }

  /** `save` writes no entry besides the five it knows about. */
  lemma SaveKeys(c: CruftConfig)
    ensures forall k :: k in Keys(Save(c)) ==> SavedKey(k)
  {
    var checkout := if c.checkout.Some? then Some(Str(c.checkout.value)) else None;
    var skip := if c.skip != [] then Some(Array(StrArray(c.skip))) else None;
    var required := Required(c);
    assert forall k :: k in Keys(required) ==> SavedKey(k);
    var withCheckout := SetIfPresent(required, "checkout", checkout);
    assert forall k :: k in Keys(withCheckout) ==> SavedKey(k);
    assert Save(c) == SetIfPresent(withCheckout, "skip", skip);
  }

  /** `save` as the program writes it: the three required entries, then `checkout` and `skip`
      inserted in place when present. */
  method SaveData(c: CruftConfig) returns (data: Dict)
    ensures data == Save(c)
  {
    data := Required(c);
    if c.checkout.Some? {
      data := Set(data, "checkout", Str(c.checkout.value));
    }
    if c.skip != [] {
      data := Set(data, "skip", Array(StrArray(c.skip)));
    }
  }

  /** Reading back a list of strings that was written out gives the same list. */
  lemma {:induction false} StrListStrArray(xs: seq<string>)
    ensures StrList(StrArray(xs)) == Some(xs)
  {
    if xs != [] {
      var items := StrArray(xs);
      StrListStrArray(xs[1..]);
      assert items[1..] == StrArray(xs[1..]);
      assert items[0] == Str(xs[0]);
      assert StrList(items) == Some([xs[0]] + xs[1..]);
      assert [xs[0]] + xs[1..] == xs;
    }
  }

  /** The `checkout` entry `save` writes (or leaves out) reads back as the same branch. */
  lemma CheckoutRoundTrip(checkout: Option<string>)
    ensures CheckoutOf(if checkout.Some? then Some(Str(checkout.value)) else None) == Success(checkout)
  {
  }

  /** The `skip` entry `save` writes (or leaves out) reads back as the same list. */
  lemma SkipRoundTrip(skip: seq<string>)
    ensures SkipOf(if skip != [] then Some(Array(StrArray(skip))) else None) == Success(skip)
  {
    StrListStrArray(skip);
  }

  /** Any record holding exactly the entries `save` writes for `c` loads back as `c`. */
  lemma LoadSavedEntries(c: CruftConfig, data: Dict)
    requires Get(data, "template") == Some(Str(c.template))
    requires Get(data, "commit") == Some(Str(c.commit))
    requires Get(data, "context") == Some(Object(c.context))
    requires Get(data, "checkout") == if c.checkout.Some? then Some(Str(c.checkout.value)) else None
    requires Get(data, "skip") == if c.skip != [] then Some(Array(StrArray(c.skip))) else None
    ensures Load(Some(data)) == Success(c)
  {
    CheckoutRoundTrip(c.checkout);
    SkipRoundTrip(c.skip);
    var context, checkout, skip := ContextOf(Get(data, "context")), CheckoutOf(Get(data, "checkout")), SkipOf(Get(data, "skip"));
    assert Load(Some(data)) == Fields(Str(c.template), Str(c.commit), context, checkout, skip);
  }

  /** What `save` writes, `load` reads back as the same record, including the optional
      fields that were omitted and come back as their defaults. */
  lemma LoadSave(c: CruftConfig)
    ensures Load(Some(Save(c))) == Success(c)
  {
    LoadSavedEntries(c, Save(c));
  }
}
