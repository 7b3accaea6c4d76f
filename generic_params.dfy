/** The generic-type list of src/generic_param.rs: of an item's generic parameters only
    the type parameters are kept, in declaration order, and written as `<A, B>` after an
    item name or as `::<A, B>` in a call. An item without a parameter list writes
    nothing; an item whose list has no type parameter writes `<>`. */
module GenericParams {
  import opened Optional
  import opened Sink
  import opened Layout
  import CairoWrite

  /** A generic parameter. Only a type parameter's name takes part in the rendering; the
      payloads of the other kinds (a constant's type, an impl's trait path and
      constraints) are not modelled. */
  datatype GenericParam =
    | Type(name: string)
    | Const(name: string)
    | ImplNamed(name: string)
    | ImplAnonymous
    | NegativeImpl

  /** The names of the type parameters among `ps`, in order. */
  function TypeNames(ps: seq<GenericParam>): (names: seq<string>)
    ensures |names| <= |ps|
  {
    if ps == [] then []
    else TypeNames(ps[..|ps| - 1]) + (match ps[|ps| - 1] case Type(n) => [n] case _ => [])
  }

  /** `generic_types`: no list gives no names; a list gives the names of its type
      parameters. */
  function GenericTypes(params: Option<seq<GenericParam>>): (r: Option<seq<string>>)
    ensures r.None? <==> params.None?
  {
    match params
    case None => None
    case Some(ps) => Some(TypeNames(ps))
  }

  /** The text `cwrite_generic_types` writes. */
  function GenericTypesText(params: Option<seq<GenericParam>>): string
  {
    match GenericTypes(params)
    case None => ""
    case Some(names) => "<" + CairoWrite.Csv(names) + ">"
  }

  /** The text `cwrite_generic_types_call` writes. */
  function GenericTypesCallText(params: Option<seq<GenericParam>>): string
  {
    match GenericTypes(params)
    case None => ""
    case Some(names) => "::<" + CairoWrite.Csv(names) + ">"
  }

  function Identity(s: string): string
  {
    s
  }

  // ---------------------------------------------------------------------------------
  // The filter

  /** The filter distributes over concatenation: the names of a list are the names of
      its first part followed by the names of its second part. */
  lemma {:induction false} TypeNamesAppend(a: seq<GenericParam>, b: seq<GenericParam>)
    ensures TypeNames(a + b) == TypeNames(a) + TypeNames(b)
  {
    if b == [] {
      assert a + b == a;
    } else {
      assert (a + b)[..|a + b| - 1] == a + b[..|b| - 1];
      TypeNamesAppend(a, b[..|b| - 1]);
    }
  }

  /** A type parameter contributes its name, every other parameter nothing. Together
      with `TypeNamesAppend` this fixes `TypeNames` on every list. */
  lemma TypeNamesSingle(p: GenericParam)
    ensures TypeNames([p]) == if p.Type? then [p.name] else []
  {
    assert [p][..0] == [];
  }

  /** A name is kept exactly when it is the name of a type parameter of the list. */
  lemma {:induction false} TypeNamesMembers(ps: seq<GenericParam>, n: string)
    ensures n in TypeNames(ps) <==> Type(n) in ps
  {
    if ps != [] {
      var init := ps[..|ps| - 1];
      TypeNamesMembers(init, n);
      assert ps == init + [ps[|ps| - 1]];
    }
  }

  /** The number of names kept is the number of type parameters. */
  lemma {:induction false} TypeNamesCount(ps: seq<GenericParam>)
    ensures |TypeNames(ps)| == |set i | 0 <= i < |ps| && ps[i].Type?|
  {
    if ps != [] {
      var init := ps[..|ps| - 1];
      var k := |ps| - 1;
      TypeNamesCount(init);
      var before := set i | 0 <= i < |init| && init[i].Type?;
      var after := set i | 0 <= i < |ps| && ps[i].Type?;
      if ps[k].Type? {
        assert after == before + {k};
      } else {
        assert after == before;
      }
    }
  }

  /** Lists without a type parameter give no names, even when they are not empty. */
  lemma {:induction false} NoTypesNoNames(ps: seq<GenericParam>)
    requires forall i :: 0 <= i < |ps| ==> !ps[i].Type?
    ensures TypeNames(ps) == []
  {
    if ps != [] {
      NoTypesNoNames(ps[..|ps| - 1]);
    }
  }

  /** Rendering names as themselves leaves the list unchanged. */
  lemma {:induction false} RenderedIdentity(names: seq<string>)
    ensures Rendered(names, Identity) == names
  {
    if names != [] {
      RenderedIdentity(names[..|names| - 1]);
      assert names == names[..|names| - 1] + [names[|names| - 1]];
    }
  }

  // ---------------------------------------------------------------------------------
  // The texts

  /** `::<` is `::` followed by `<`. */
  lemma TurbofishSplit(list: string)
    ensures "::<" + list + ">" == "::" + ("<" + list + ">")
  {
    assert "::<" == "::" + "<";
  }

  /** A call site carries `::` in front of exactly what the item's declaration carries. */
  lemma CallTextIsTurbofish(params: Option<seq<GenericParam>>)
    ensures params.None? ==> GenericTypesCallText(params) == GenericTypesText(params) == ""
    ensures params.Some? ==> GenericTypesCallText(params) == "::" + GenericTypesText(params)
  {
    if params.Some? {
      TurbofishSplit(CairoWrite.Csv(TypeNames(params.value)));
    }
  }

  /** A parameter list with no type parameter still writes the angle brackets. */
  lemma EmptyAngles(ps: seq<GenericParam>)
    requires forall i :: 0 <= i < |ps| ==> !ps[i].Type?
    ensures GenericTypesText(Some(ps)) == "<>"
    ensures GenericTypesCallText(Some(ps)) == "::<>"
  {
    NoTypesNoNames(ps);
  }

  // ---------------------------------------------------------------------------------
  // The writers

  /** `cwrite_generic_types`: the names as an angled comma-separated list, or nothing. */
  method CwriteGenericTypes(params: Option<seq<GenericParam>>, w: Writer)
    requires w.Valid()
    modifies w.Target()
    ensures w.Valid() && w.Written() == old(w.Written()) + GenericTypesText(params)
  {
    var generics := GenericTypes(params);
    if generics.Some? {
      CairoWrite.CwriteCsvAngled(generics.value, Identity, w);
      RenderedIdentity(generics.value);
    } else {
      assert old(w.Written()) + "" == old(w.Written());
    }
  }

  /** `cwrite_generic_types_call`: `::` and the angled list, or nothing. */
  method CwriteGenericTypesCall(params: Option<seq<GenericParam>>, w: Writer)
    requires w.Valid()
    modifies w.Target()
    ensures w.Valid() && w.Written() == old(w.Written()) + GenericTypesCallText(params)
  {
    var generics := GenericTypes(params);
    if generics.Some? {
      ghost var angled := "<" + CairoWrite.Csv(generics.value) + ">";
      WriteStr(w, "::");
      CairoWrite.CwriteCsvAngled(generics.value, Identity, w);
      RenderedIdentity(generics.value);
      AppendAssoc3(old(w.Written()), "::", angled);
      TurbofishSplit(CairoWrite.Csv(generics.value));
    } else {
      assert old(w.Written()) + "" == old(w.Written());
    }
  }

  /** `generic_types_string`: what `cwrite_generic_types` writes, as a fresh string. */
  method GenericTypesString(params: Option<seq<GenericParam>>) returns (s: string)
    ensures s == GenericTypesText(params)
  {
    var buf := new StringSink();
    CwriteGenericTypes(params, Buffer(buf));
    s := buf.text;
  }
}
