/** The plugin framework reduced to what the handlers observe: diagnostics, attribute values
    that may be unknown or null, list conversion, and a response holding diagnostics and state. */
module Framework {
  import opened Wrappers

  /** One entry of `diag.Diagnostics`. */
  datatype Diagnostic = Error(summary: string, detail: string) | Warning(summary: string, detail: string)

  /** `Diagnostics.HasError`. */
  predicate HasError(ds: seq<Diagnostic>)
  {
    exists i :: 0 <= i < |ds| && ds[i].Error?
  }

  /** `Diagnostics.Append` (and `AddError`/`AddWarning`, which go through it): each new diagnostic
      is added at the end unless an equal one is already present. */
  function AppendUnique(ds: seq<Diagnostic>, more: seq<Diagnostic>): (r: seq<Diagnostic>)
    ensures |ds| <= |r| && r[..|ds|] == ds
    ensures forall d :: d in r <==> d in ds || d in more
    decreases |more|
  {
    if more == [] then ds
    else AppendUnique(if more[0] in ds then ds else ds + [more[0]], more[1..])
  }

  /** Appending never hides an error and never invents one. */
  lemma AppendUniqueHasError(ds: seq<Diagnostic>, more: seq<Diagnostic>)
    ensures HasError(AppendUnique(ds, more)) <==> HasError(ds) || HasError(more)
  {
    var r := AppendUnique(ds, more);
    if HasError(r) {
      var i :| 0 <= i < |r| && r[i].Error?;
      assert r[i] in ds || r[i] in more;
    }
    if HasError(more) {
      var i :| 0 <= i < |more| && more[i].Error?;
      assert more[i] in r;
    }
    if HasError(ds) {
      var i :| 0 <= i < |ds| && ds[i].Error?;
      assert r[i] == ds[i];
    }
  }

  /** Appending diagnostics that are all present already changes nothing. */
  lemma {:induction false} AppendUniqueAbsorbs(ds: seq<Diagnostic>, more: seq<Diagnostic>)
    requires forall k :: 0 <= k < |more| ==> more[k] in ds
    ensures AppendUnique(ds, more) == ds
    decreases |more|
  {
    if more != [] {
      AppendUniqueAbsorbs(ds, more[1..]);
    }
  }

  /** Appending one diagnostic that is not present adds exactly that one. */
  lemma AppendUniqueOne(ds: seq<Diagnostic>, d: Diagnostic)
    requires d !in ds
    ensures AppendUnique(ds, [d]) == ds + [d]
  {
  }

  /** A framework attribute value (`types.String`, `types.Int64`, `types.List`). */
  datatype Attr<+T> = Unknown | Null | Known(value: T) {
    /** `ValueString`/`ValueInt64`: the value, or `zero` when unknown or null. */
    function ValueOr(zero: T): T {
      if Known? then value else zero
    }
  }

  /** `types.String.ValueString()`. */
  function ValueString(a: Attr<string>): string
  {
    a.ValueOr("")
  }

  /** `types.ListValue(types.StringType, ...)` built from known string values. */
  function StringList(s: seq<string>): Attr<seq<Attr<string>>>
  {
    Known(seq(|s|, k requires 0 <= k < |s| => Known(s[k])))
  }

  /** `List.ElementsAs(ctx, &[]string, false)`: a null list becomes the nil slice with no
      diagnostic (a slice can hold nil); a known list whose elements are all known gives the
      elements in order; an unknown list, or an unknown or null element, reports a conversion
      error. */
  function ElementsAsStrings(l: Attr<seq<Attr<string>>>): (r: Result<seq<string>, seq<Diagnostic>>)
    ensures r.Success? <==> !l.Unknown? && (l.Known? ==> forall k :: 0 <= k < |l.value| ==> l.value[k].Known?)
    ensures l.Null? ==> r == Success([])
    ensures l.Known? && r.Success? ==>
              |r.value| == |l.value| && forall k :: 0 <= k < |l.value| ==> l.value[k] == Known(r.value[k])
    ensures r.Failure? ==> HasError(r.error)
  {
    if l.Null? then Success([])
    else if l.Known? && forall k :: 0 <= k < |l.value| ==> l.value[k].Known? then
      Success(seq(|l.value|, k requires 0 <= k < |l.value| => l.value[k].value))
    else
      var e := [Error("Value Conversion Error", "the list or one of its elements is unknown or null")];
      assert e[0].Error?;
      Failure(e)
  }

  /** Converting a list built from strings gives the strings back. */
  lemma ElementsAsStringList(s: seq<string>)
    ensures ElementsAsStrings(StringList(s)) == Success(s)
  {
    var r := ElementsAsStrings(StringList(s));
    assert r.Success?;
    assert |r.value| == |s|;
    assert forall k :: 0 <= k < |s| ==> r.value[k] == s[k];
    assert r.value == s;
  }

  /** A resource or data source response: its diagnostics and the state it leaves behind
      (`None` when no resource is held, e.g. after `RemoveResource`). */
  class Response<M> {
    var diagnostics: seq<Diagnostic>
    var state: Option<M>

    constructor (initial: Option<M>)
      ensures diagnostics == [] && state == initial
    {
      diagnostics := [];
      state := initial;
    }

    /** `resp.Diagnostics.Append(ds...)`. */
    method Append(ds: seq<Diagnostic>)
      modifies this
      ensures diagnostics == AppendUnique(old(diagnostics), ds)
      ensures state == old(state)
    {
      diagnostics := AppendUnique(diagnostics, ds);
    }

    /** `resp.Diagnostics.AddError(summary, detail)`. */
    method AddError(summary: string, detail: string)
      modifies this
      ensures diagnostics == AppendUnique(old(diagnostics), [Error(summary, detail)])
      ensures state == old(state)
    {
      diagnostics := AppendUnique(diagnostics, [Error(summary, detail)]);
    }

    /** `resp.State.Set(ctx, &data)`; the model treats it as always succeeding. */
    method SetState(m: M)
      modifies this
      ensures state == Some(m)
      ensures diagnostics == old(diagnostics)
    {
      state := Some(m);
    }

    /** `resp.State.RemoveResource(ctx)`. */
    method RemoveResource()
      modifies this
      ensures state == None
      ensures diagnostics == old(diagnostics)
    {
      state := None;
    }
  }
}
