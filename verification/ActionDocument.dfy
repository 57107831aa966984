/**
 The action document compiler: `inline_enum_refs` and the schemas it pops.

 A schema means what a reader sees in it after following references: `At` asks for one place, by a
 path of keys and list positions, in the fully resolved schema. Titles and descriptions are notes
 for a human and are not seen. Two documents mean the same when every path shows the same thing.
 */
module ActionDocument {
  import opened Wrappers
  import opened CanonicalJson

  type Object = map<string, Value>

  const PREFIX := "#/components/schemas/"
  const SIMPLE_KEYS: set<string> := {"type", "enum", "title", "description"}

  /** `components` holds the component sections other than `schemas`; `rest` all the other fields. */
  datatype Document = Document(rest: Object, components: Object, paths: Object, schemas: Object)

  // ---------------------------------------------------------------------------------------------
  // What the compiler does
  // ---------------------------------------------------------------------------------------------

  predicate IsSimple(definition: Value) {
    definition.VObject? && definition.members.Keys <= SIMPLE_KEYS && "enum" in definition.members
  }

  predicate IsObjectSchema(definition: Value) {
    definition.VObject? && "type" in definition.members && definition.members["type"] == VText("object")
  }

  /** `text.rsplit("/", 1)[-1]` */
  function LastSegment(text: string): string {
    if |text| == 0 || text[|text| - 1] == '/' then ""
    else LastSegment(text[..|text| - 1]) + [text[|text| - 1]]
  }

  datatype Pointer = Pointer(text: Value, siblings: Object)

  predicate SingleReference(v: Value) {
    v.VArray? && |v.items| == 1 && v.items[0].VObject? && "$ref" in v.items[0].members
  }

  /** Pydantic writes a reference bare, or as the only item of an `allOf` with a description beside it. */
  function PointerOf(m: Object): Option<Pointer> {
    if "$ref" in m then Some(Pointer(m["$ref"], m - {"$ref"}))
    else if "allOf" in m && SingleReference(m["allOf"]) then
      Some(Pointer(m["allOf"].items[0].members["$ref"], m - {"allOf"}))
    else None
  }

  /** The simple enum schema that an object refers to, as the compiler reads it. */
  function EnumNamed(schemas: Object, m: Object): (r: Option<string>)
    ensures r.Some? ==> PointerOf(m).Some? && r.value in schemas && IsSimple(schemas[r.value])
  {
    match PointerOf(m)
    case None => None
    case Some(p) =>
      if p.text.VText? && p.text.s != "" && LastSegment(p.text.s) in schemas && IsSimple(schemas[LastSegment(p.text.s)])
      then Some(LastSegment(p.text.s)) else None
  }

  /** The enum without its title, overwritten by what stood beside the reference. */
  function Merge(definition: Object, siblings: Object): Object {
    map k | k in (definition.Keys - {"title"}) + siblings.Keys ::
      if k in siblings then siblings[k] else definition[k]
  }

  /** A list's items are descended into, never replaced; a dictionary's values are replaced. */
  function Walk(schemas: Object, node: Value): Value
    decreases node, 0
  {
    match node
    case VArray(items) => VArray(seq(|items|, i requires 0 <= i < |items| => Walk(schemas, items[i])))
    case VObject(m) => VObject(map k | k in m :: WalkValue(schemas, m[k]))
    case _ => node
  }

  function WalkValue(schemas: Object, value: Value): Value
    decreases value, 1
  {
    if value.VObject? && EnumNamed(schemas, value.members).Some? then
      VObject(Merge(schemas[EnumNamed(schemas, value.members).value].members, PointerOf(value.members).value.siblings))
    else Walk(schemas, value)
  }

  /** Only the `properties` of a component schema are rewritten. */
  function WalkDefinition(schemas: Object, definition: Value): Value {
    if definition.VObject? && "properties" in definition.members then
      VObject(definition.members["properties" := Walk(schemas, definition.members["properties"])])
    else definition
  }

  function WalkSchemas(schemas: Object): Object {
    map n | n in schemas :: WalkDefinition(schemas, schemas[n])
  }

  /** The object schema a request body refers to, as the compiler reads it. */
  function BodyNamed(schemas: Object, media: Value): (r: Option<string>)
    ensures r.Some? ==> r.value in schemas && IsObjectSchema(schemas[r.value])
  {
    if media.VObject? && "schema" in media.members && media.members["schema"].VObject?
       && "$ref" in media.members["schema"].members then
      var text := media.members["schema"].members["$ref"];
      if text.VText? && text.s != "" && LastSegment(text.s) in schemas && IsObjectSchema(schemas[LastSegment(text.s)])
      then Some(LastSegment(text.s)) else None
    else None
  }

  function InlineMedia(schemas: Object, media: Value): Value {
    match BodyNamed(schemas, media)
    case None => media
    case Some(n) => VObject(media.members["schema" := schemas[n]])
  }

  function InlineContent(schemas: Object, content: Value): Value {
    if content.VObject? then VObject(map t | t in content.members :: InlineMedia(schemas, content.members[t]))
    else content
  }

  function InlineRequestBody(schemas: Object, body: Value): Value {
    if body.VObject? && "content" in body.members then
      VObject(body.members["content" := InlineContent(schemas, body.members["content"])])
    else body
  }

  function InlineOperation(schemas: Object, operation: Value): Value {
    if operation.VObject? && "requestBody" in operation.members then
      VObject(operation.members["requestBody" := InlineRequestBody(schemas, operation.members["requestBody"])])
    else operation
  }

  function InlinePathItem(schemas: Object, item: Value): Value {
    if item.VObject? then VObject(map verb | verb in item.members :: InlineOperation(schemas, item.members[verb]))
    else item
  }

  function InlineBodies(schemas: Object, paths: Object): Object {
    map path | path in paths :: InlinePathItem(schemas, paths[path])
  }

  function WalkPaths(schemas: Object, paths: Object): Object {
    map path | path in paths :: WalkValue(schemas, paths[path])
  }

  /** Every text and every key in a value: what a search of its JSON for a quoted name can find. */
  function Texts(v: Value): set<string> {
    match v
    case VText(s) => {s}
    case VArray(items) => set i, s | 0 <= i < |items| && s in Texts(items[i]) :: s
    case VObject(m) => m.Keys + (set k, s | k in m && s in Texts(m[k]) :: s)
    case _ => {}
  }

  predicate Mentions(v: Value, name: string) {
    PREFIX + name in Texts(v)
  }

  predicate Mentioned(doc: Document, name: string) {
    Mentions(VObject(doc.rest), name) || Mentions(VObject(doc.components), name)
    || Mentions(VObject(doc.paths), name) || Mentions(VObject(doc.schemas), name)
  }

  /** The document after both rewrites, before any enum schema is popped. */
  function Rewritten(doc: Document): Document {
    var schemas := WalkSchemas(doc.schemas);
    doc.(paths := InlineBodies(schemas, WalkPaths(doc.schemas, doc.paths)), schemas := schemas)
  }

  // ---------------------------------------------------------------------------------------------
  // What a document means
  // ---------------------------------------------------------------------------------------------

  predicate Hidden(key: string, value: Value) {
    key in {"title", "description"} && value.VText?
  }

  function Shown(m: Object): set<string> {
    set k | k in m && !Hidden(k, m[k])
  }

  datatype Resolved = Loop | Dangling | Clash | Known(value: Value)

  /** The component a reference text names, by the rule of the standard and not by its last segment. */
  function Component(text: Value): Option<string> {
    if text.VText? && PREFIX <= text.s then Some(text.s[|PREFIX|..]) else None
  }

  function Union(m: Object, siblings: Object): Object {
    map k | k in m.Keys + siblings.Keys :: if k in siblings then siblings[k] else m[k]
  }

  /** A schema and the keywords beside a reference to it hold together; one keyword twice has no one meaning. */
  function Beside(r: Resolved, siblings: Object): Resolved {
    if !r.Known? then r
    else if r.value.VObject? then
      if Shown(r.value.members) !! Shown(siblings) then Known(VObject(Union(r.value.members, siblings))) else Clash
    else if Shown(siblings) == {} then r
    else Clash
  }

  function Resolve(schemas: Object, v: Value, seen: set<string>): Resolved
    decreases schemas.Keys - seen
  {
    if !v.VObject? || PointerOf(v.members).None? then Known(v)
    else
      var p := PointerOf(v.members).value;
      var name := Component(p.text);
      if name.None? || name.value !in schemas then Dangling
      else if name.value in seen then Loop
      else Beside(Resolve(schemas, schemas[name.value], seen + {name.value}), p.siblings)
  }

  datatype Step = Key(key: string) | Index(index: nat)

  datatype Shape = Leaf(value: Value) | List(length: nat) | Fields(keys: set<string>)

  datatype Seen = Missing | Unresolved(why: Resolved) | Found(shape: Shape)

  function ShapeOf(v: Value): Shape {
    match v
    case VArray(items) => List(|items|)
    case VObject(m) => Fields(Shown(m))
    case _ => Leaf(v)
  }

  /** What is at a path of a schema, following every reference on the way. */
  function At(schemas: Object, v: Value, path: seq<Step>): Seen
    decreases |path|
  {
    var r := Resolve(schemas, v, {});
    if !r.Known? then Unresolved(r)
    else if |path| == 0 then Found(ShapeOf(r.value))
    else
      match path[0]
      case Key(k) =>
        if r.value.VObject? && k in Shown(r.value.members) then At(schemas, r.value.members[k], path[1..]) else Missing
      case Index(i) =>
        if r.value.VArray? && i < |r.value.items| then At(schemas, r.value.items[i], path[1..]) else Missing
  }

  // ---------------------------------------------------------------------------------------------
  // Documents whose references are as the compiler expects
  // ---------------------------------------------------------------------------------------------

  predicate Titled(definition: Value) {
    definition.VObject? ==> forall k | k in definition.members && k in {"title", "description"} :: definition.members[k].VText?
  }

  /**
   A reference names a component schema. What stands beside it repeats no keyword of an enum it
   refers to, and is only a title or a description when it refers to an object schema.
   */
  predicate TidyPointer(schemas: Object, m: Object) {
    PointerOf(m).Some? ==>
      var p := PointerOf(m).value;
      && p.text.VText?
      && PREFIX <= p.text.s
      && '/' !in p.text.s[|PREFIX|..]
      && "allOf" !in p.siblings
      && ("$ref" !in m ==> m["allOf"].items[0].members.Keys == {"$ref"})
      && (p.text.s[|PREFIX|..] in schemas ==> TidySiblings(schemas[p.text.s[|PREFIX|..]], p.siblings))
  }

  predicate TidySiblings(target: Value, siblings: Object) {
    && (IsSimple(target) ==> Shown(target.members) !! Shown(siblings))
    && (IsObjectSchema(target) ==> Shown(siblings) == {})
  }

  ghost predicate Tidy(schemas: Object, v: Value) {
    match v
    case VArray(items) => forall i :: 0 <= i < |items| ==> Tidy(schemas, items[i])
    case VObject(m) => TidyPointer(schemas, m) && forall k :: k in m ==> Tidy(schemas, m[k])
    case _ => true
  }

  ghost predicate TidySchema(schemas: Object, name: string)
    requires name in schemas
  {
    && Tidy(schemas, schemas[name])
    && Titled(schemas[name])
    && (IsObjectSchema(schemas[name]) ==> PointerOf(schemas[name].members).None?)
  }

  ghost predicate TidySchemas(schemas: Object) {
    forall n :: n in schemas ==> TidySchema(schemas, n)
  }

  ghost predicate TidyDocument(doc: Document) {
    TidySchemas(doc.schemas) && Tidy(doc.schemas, VObject(doc.paths))
  }

  lemma {:induction false} SegmentOfReference(text: string, cut: nat)
    requires cut <= |text| && '/' !in text[cut..]
    requires cut > 0 && text[cut - 1] == '/'
    ensures LastSegment(text) == text[cut..]
    decreases |text|
  {
    if cut == |text| {
      assert text[cut..] == "";
    } else {
      var front := text[..|text| - 1];
      assert front[cut..] == text[cut..][..|text| - 1 - cut];
      assert text[|text| - 1] == text[cut..][|text| - 1 - cut];
      SegmentOfReference(front, cut);
      assert text[cut..] == front[cut..] + [text[|text| - 1]];
    }
  }

  lemma ComponentIsLastSegment(text: string)
    requires PREFIX <= text && '/' !in text[|PREFIX|..]
    ensures LastSegment(text) == text[|PREFIX|..]
  {
    assert text[|PREFIX| - 1] == PREFIX[|PREFIX| - 1] == '/';
    SegmentOfReference(text, |PREFIX|);
  }

  // ---------------------------------------------------------------------------------------------
  // One value rewritten into another
  // ---------------------------------------------------------------------------------------------

  /** `w` is the enum that `v` refers to, merged with what stood beside the reference. */
  predicate Inlined(schemas: Object, v: Value, w: Value) {
    && v.VObject?
    && PointerOf(v.members).Some?
    && var p := PointerOf(v.members).value;
    && Component(p.text).Some?
    && var n := Component(p.text).value;
    && n in schemas
    && IsSimple(schemas[n])
    && Titled(schemas[n])
    && Shown(schemas[n].members) !! Shown(p.siblings)
    && "allOf" !in p.siblings
    && w == VObject(Merge(schemas[n].members, p.siblings))
  }

  /** `w` is a copy of the object schema that `v` refers to. */
  predicate Copied(schemas: Object, after: Object, v: Value, w: Value) {
    && v.VObject?
    && PointerOf(v.members).Some?
    && var p := PointerOf(v.members).value;
    && Component(p.text).Some?
    && var n := Component(p.text).value;
    && n in schemas
    && n in after
    && IsObjectSchema(schemas[n])
    && IsObjectSchema(after[n])
    && PointerOf(schemas[n].members).None?
    && PointerOf(after[n].members).None?
    && Titled(schemas[n])
    && Shown(p.siblings) == {}
    && w == after[n]
  }

  predicate SamePointer(m: Object, m2: Object) {
    && ("$ref" in m <==> "$ref" in m2)
    && PointerOf(m).Some? == PointerOf(m2).Some?
    && (PointerOf(m).Some? ==> PointerOf(m).value.text == PointerOf(m2).value.text)
  }

  ghost predicate Alike(schemas: Object, after: Object, v: Value, w: Value)
    decreases v, 1
  {
    Pointwise(schemas, after, v, w) || Inlined(schemas, v, w) || Copied(schemas, after, v, w)
  }

  ghost predicate Pointwise(schemas: Object, after: Object, v: Value, w: Value)
    decreases v, 0
  {
    match v
    case VArray(items) =>
      w.VArray? && |items| == |w.items| && forall i :: 0 <= i < |items| ==> Alike(schemas, after, items[i], w.items[i])
    case VObject(m) =>
      && w.VObject?
      && m.Keys == w.members.Keys
      && SamePointer(m, w.members)
      && forall k :: k in m ==> Alike(schemas, after, m[k], w.members[k])
    case _ => v == w
  }

  lemma {:induction false} AlikeSelf(schemas: Object, after: Object, v: Value)
    ensures Pointwise(schemas, after, v, v)
    decreases v
  {
    match v
    case VArray(items) =>
      forall i | 0 <= i < |items| { AlikeSelf(schemas, after, items[i]); }
    case VObject(m) =>
      forall k | k in m { AlikeSelf(schemas, after, m[k]); }
    case _ =>
  }

  lemma TextStays(schemas: Object, after: Object, v: Value, w: Value)
    requires Alike(schemas, after, v, w)
    ensures v.VText? == w.VText?
  {
    assert Pointwise(schemas, after, v, w) ==> v.VText? == w.VText? by {
      match v
      case VArray(_) =>
      case VObject(_) =>
      case _ =>
    }
  }

  /** The component schemas before and after, rewritten one by one. */
  ghost predicate Twins(schemas: Object, after: Object) {
    schemas.Keys == after.Keys && forall n :: n in schemas ==> Pointwise(schemas, after, schemas[n], after[n])
  }

  // ---------------------------------------------------------------------------------------------
  // Alike values show the same at every path
  // ---------------------------------------------------------------------------------------------

  ghost predicate AlikeShown(schemas: Object, after: Object, m: Object, m2: Object) {
    Shown(m) == Shown(m2) && forall k :: k in Shown(m) ==> Alike(schemas, after, m[k], m2[k])
  }

  ghost predicate SameView(schemas: Object, after: Object, r: Resolved, r2: Resolved) {
    if !r.Known? then r == r2
    else if !r2.Known? then false
    else
      match r.value
      case VArray(items) =>
        && r2.value.VArray? && |items| == |r2.value.items|
        && forall i :: 0 <= i < |items| ==> Alike(schemas, after, items[i], r2.value.items[i])
      case VObject(m) => r2.value.VObject? && AlikeShown(schemas, after, m, r2.value.members)
      case _ => r.value == r2.value
  }

  lemma ShownAlike(schemas: Object, after: Object, m: Object, m2: Object)
    requires m.Keys == m2.Keys
    requires forall k :: k in m ==> Alike(schemas, after, m[k], m2[k])
    ensures AlikeShown(schemas, after, m, m2)
  {
    forall k | k in m ensures Hidden(k, m[k]) == Hidden(k, m2[k]) {
      TextStays(schemas, after, m[k], m2[k]);
    }
  }

  lemma BesideAlike(schemas: Object, after: Object, r: Resolved, r2: Resolved, siblings: Object, siblings2: Object)
    requires SameView(schemas, after, r, r2)
    requires siblings.Keys == siblings2.Keys
    requires forall k :: k in siblings ==> Alike(schemas, after, siblings[k], siblings2[k])
    ensures SameView(schemas, after, Beside(r, siblings), Beside(r2, siblings2))
  {
    ShownAlike(schemas, after, siblings, siblings2);
    if r.Known? && r.value.VObject? && Shown(r.value.members) !! Shown(siblings) {
      var m, m2 := r.value.members, r2.value.members;
      ShownUnion(m, siblings);
      ShownUnion(m2, siblings2);
    }
  }

  lemma ShownUnion(m: Object, siblings: Object)
    ensures Shown(Union(m, siblings)) == Shown(siblings) + (Shown(m) - siblings.Keys)
    ensures forall k :: k in Shown(siblings) ==> Union(m, siblings)[k] == siblings[k]
    ensures forall k :: k in Shown(m) - siblings.Keys ==> Union(m, siblings)[k] == m[k]
  {
    var u := Union(m, siblings);
    forall k ensures k in Shown(u) <==> k in Shown(siblings) + (Shown(m) - siblings.Keys) {
    }
  }

  lemma SiblingsAlike(schemas: Object, after: Object, m: Object, m2: Object)
    requires Pointwise(schemas, after, VObject(m), VObject(m2)) && PointerOf(m).Some?
    ensures PointerOf(m).value.siblings.Keys == PointerOf(m2).value.siblings.Keys
    ensures forall k :: k in PointerOf(m).value.siblings ==>
              Alike(schemas, after, PointerOf(m).value.siblings[k], PointerOf(m2).value.siblings[k])
  {
  }

  lemma {:induction false} ResolveTwins(schemas: Object, after: Object, v: Value, w: Value, seen: set<string>)
    requires Twins(schemas, after) && Pointwise(schemas, after, v, w)
    ensures SameView(schemas, after, Resolve(schemas, v, seen), Resolve(after, w, seen))
    decreases schemas.Keys - seen
  {
    if v.VObject? {
      if PointerOf(v.members).None? {
        ShownAlike(schemas, after, v.members, w.members);
      } else {
        var p := PointerOf(v.members).value;
        SiblingsAlike(schemas, after, v.members, w.members);
        var name := Component(p.text);
        if name.Some? && name.value in schemas && name.value !in seen {
          var n := name.value;
          assert n in schemas.Keys - seen && n !in schemas.Keys - (seen + {n});
          ResolveTwins(schemas, after, schemas[n], after[n], seen + {n});
          BesideAlike(schemas, after, Resolve(schemas, schemas[n], seen + {n}), Resolve(after, after[n], seen + {n}),
                      p.siblings, PointerOf(w.members).value.siblings);
        }
      }
    }
  }

  lemma ResolveInlined(schemas: Object, after: Object, v: Value, w: Value)
    requires Inlined(schemas, v, w)
    ensures SameView(schemas, after, Resolve(schemas, v, {}), Resolve(after, w, {}))
  {
    var p := PointerOf(v.members).value;
    var n := Component(p.text).value;
    var m := schemas[n].members;
    assert PointerOf(m).None?;
    assert Resolve(schemas, schemas[n], {} + {n}) == Known(schemas[n]);
    assert Resolve(schemas, v, {}) == Known(VObject(Union(m, p.siblings)));
    var merged := Merge(m, p.siblings);
    assert "$ref" !in merged && "allOf" !in merged;
    assert Resolve(after, w, {}) == Known(VObject(merged));
    ShownUnion(m, p.siblings);
    assert Shown(merged) == Shown(Union(m, p.siblings));
    forall k | k in Shown(merged) ensures Alike(schemas, after, Union(m, p.siblings)[k], merged[k]) {
      AlikeSelf(schemas, after, merged[k]);
    }
  }

  lemma ResolveCopied(schemas: Object, after: Object, v: Value, w: Value)
    requires Twins(schemas, after) && Copied(schemas, after, v, w)
    ensures SameView(schemas, after, Resolve(schemas, v, {}), Resolve(after, w, {}))
  {
    var p := PointerOf(v.members).value;
    var n := Component(p.text).value;
    var m, m2 := schemas[n].members, after[n].members;
    assert Resolve(schemas, schemas[n], {} + {n}) == Known(schemas[n]);
    assert Resolve(schemas, v, {}) == Known(VObject(Union(m, p.siblings)));
    ShownAlike(schemas, after, m, m2);
    ShownUnion(m, p.siblings);
    assert Shown(m) - p.siblings.Keys == Shown(m) by {
      forall k | k in Shown(m) ensures k !in p.siblings {
        assert k !in Shown(p.siblings);
      }
    }
  }

  lemma ResolveAlike(schemas: Object, after: Object, v: Value, w: Value)
    requires Twins(schemas, after) && Alike(schemas, after, v, w)
    ensures SameView(schemas, after, Resolve(schemas, v, {}), Resolve(after, w, {}))
  {
    if Inlined(schemas, v, w) {
      ResolveInlined(schemas, after, v, w);
    } else if Copied(schemas, after, v, w) {
      ResolveCopied(schemas, after, v, w);
    } else {
      ResolveTwins(schemas, after, v, w, {});
    }
  }

  /** Rewriting keeps what every path shows. */
  lemma {:induction false} AlikeShowTheSame(schemas: Object, after: Object, v: Value, w: Value, path: seq<Step>)
    requires Twins(schemas, after) && Alike(schemas, after, v, w)
    ensures At(schemas, v, path) == At(after, w, path)
    decreases |path|
  {
    ResolveAlike(schemas, after, v, w);
    var r, r2 := Resolve(schemas, v, {}), Resolve(after, w, {});
    if r.Known? && |path| > 0 {
      match path[0] {
        case Key(k) =>
          if r.value.VObject? && k in Shown(r.value.members) {
            AlikeShowTheSame(schemas, after, r.value.members[k], r2.value.members[k], path[1..]);
          }
        case Index(i) =>
          if r.value.VArray? && i < |r.value.items| {
            AlikeShowTheSame(schemas, after, r.value.items[i], r2.value.items[i], path[1..]);
          }
      }
    }
  }

  // ---------------------------------------------------------------------------------------------
  // The enum walk
  // ---------------------------------------------------------------------------------------------

  lemma WalkKeepsText(schemas: Object, v: Value)
    requires v.VText?
    ensures Walk(schemas, v) == v && WalkValue(schemas, v) == v
  {
  }

  lemma WalkKeepsLists(schemas: Object, v: Value)
    ensures v.VArray? == WalkValue(schemas, v).VArray?
    ensures v.VArray? ==> WalkValue(schemas, v) == Walk(schemas, v)
  {
  }

  /** A list keeps its length, and an object in it keeps its keys and its reference text. */
  lemma WalkedItems(schemas: Object, v: Value)
    requires v.VArray? && Tidy(schemas, v)
    ensures Walk(schemas, v).VArray? && |Walk(schemas, v).items| == |v.items|
    ensures forall i :: 0 <= i < |v.items| && v.items[i].VObject? ==>
              && Walk(schemas, v).items[i].VObject?
              && Walk(schemas, v).items[i].members.Keys == v.items[i].members.Keys
              && ("$ref" in v.items[i].members ==> Walk(schemas, v).items[i].members["$ref"] == v.items[i].members["$ref"])
    ensures forall i :: 0 <= i < |v.items| && !v.items[i].VObject? ==> !Walk(schemas, v).items[i].VObject?
  {
    forall i | 0 <= i < |v.items| && v.items[i].VObject? && "$ref" in v.items[i].members
      ensures Walk(schemas, v.items[i]).members["$ref"] == v.items[i].members["$ref"]
    {
      assert Tidy(schemas, v.items[i]);
      assert TidyPointer(schemas, v.items[i].members);
      WalkKeepsText(schemas, v.items[i].members["$ref"]);
    }
  }

  lemma WalkedPointer(schemas: Object, m: Object)
    requires Tidy(schemas, VObject(m))
    ensures SamePointer(m, Walk(schemas, VObject(m)).members)
    ensures "$ref" !in m && PointerOf(m).Some? ==>
              Walk(schemas, VObject(m)).members["allOf"].items[0].members.Keys == m["allOf"].items[0].members.Keys
  {
    var m2 := Walk(schemas, VObject(m)).members;
    assert TidyPointer(schemas, m);
    if "$ref" in m {
      WalkKeepsText(schemas, m["$ref"]);
      assert m2["$ref"] == m["$ref"];
    } else if "allOf" in m {
      WalkKeepsLists(schemas, m["allOf"]);
      if m["allOf"].VArray? {
        assert Tidy(schemas, m["allOf"]);
        WalkedItems(schemas, m["allOf"]);
      }
    }
  }

  lemma {:induction false} WalkIsPointwise(schemas: Object, after: Object, v: Value)
    requires TidySchemas(schemas) && Tidy(schemas, v)
    ensures Pointwise(schemas, after, v, Walk(schemas, v))
    decreases v, 0
  {
    match v
    case VArray(items) =>
      forall i | 0 <= i < |items| { WalkIsPointwise(schemas, after, items[i]); }
    case VObject(m) =>
      WalkedPointer(schemas, m);
      forall k | k in m { WalkedValueAlike(schemas, after, m[k]); }
    case _ =>
  }

  lemma {:induction false} WalkedValueAlike(schemas: Object, after: Object, v: Value)
    requires TidySchemas(schemas) && Tidy(schemas, v)
    ensures Alike(schemas, after, v, WalkValue(schemas, v))
    decreases v, 1
  {
    if v.VObject? && EnumNamed(schemas, v.members).Some? {
      var n := EnumNamed(schemas, v.members).value;
      assert TidyPointer(schemas, v.members);
      ComponentIsLastSegment(PointerOf(v.members).value.text.s);
      assert TidySchema(schemas, n);
      assert Inlined(schemas, v, WalkValue(schemas, v));
    } else {
      WalkIsPointwise(schemas, after, v);
    }
  }

  lemma WalkedDefinition(schemas: Object, n: string)
    requires TidySchemas(schemas) && n in schemas
    ensures Pointwise(schemas, WalkSchemas(schemas), schemas[n], WalkSchemas(schemas)[n])
  {
    var after := WalkSchemas(schemas);
    assert TidySchema(schemas, n);
    AlikeSelf(schemas, after, schemas[n]);
    if schemas[n].VObject? && "properties" in schemas[n].members {
      WalkIsPointwise(schemas, after, schemas[n].members["properties"]);
    }
  }

  lemma WalkedSchemasAreTwins(schemas: Object)
    requires TidySchemas(schemas)
    ensures Twins(schemas, WalkSchemas(schemas))
  {
    forall n | n in schemas { WalkedDefinition(schemas, n); }
  }

  /** What the compiler looks at in a definition is untouched by the walk. */
  ghost predicate SameKind(d: Value, e: Value) {
    && d.VObject? == e.VObject?
    && IsSimple(d) == IsSimple(e)
    && IsObjectSchema(d) == IsObjectSchema(e)
    && (Titled(d) ==> Titled(e))
    && (d.VObject? ==> Shown(d.members) == Shown(e.members) && SamePointer(d.members, e.members))
  }

  lemma WalkedKind(schemas: Object, n: string)
    requires TidySchemas(schemas) && n in schemas
    ensures SameKind(schemas[n], WalkSchemas(schemas)[n])
  {
    WalkedDefinition(schemas, n);
    if schemas[n].VObject? {
      ShownAlike(schemas, WalkSchemas(schemas), schemas[n].members, WalkSchemas(schemas)[n].members);
    }
  }

  ghost predicate SameKinds(schemas: Object, after: Object) {
    schemas.Keys == after.Keys && forall n :: n in schemas ==> SameKind(schemas[n], after[n])
  }

  lemma {:induction false} TidyMoves(schemas: Object, after: Object, v: Value)
    requires SameKinds(schemas, after) && Tidy(schemas, v)
    ensures Tidy(after, v)
    decreases v
  {
    match v
    case VArray(items) =>
      forall i | 0 <= i < |items| { TidyMoves(schemas, after, items[i]); }
    case VObject(m) =>
      forall k | k in m { TidyMoves(schemas, after, m[k]); }
    case _ =>
  }

  /** A pointer stays tidy when what stands around it is rewritten. */
  lemma TidyPointerMoves(schemas: Object, after: Object, m: Object, m2: Object)
    requires SameKinds(schemas, after) && TidyPointer(schemas, m)
    requires Pointwise(schemas, after, VObject(m), VObject(m2))
    requires "$ref" !in m && PointerOf(m).Some? ==> m2["allOf"].items[0].members.Keys == m["allOf"].items[0].members.Keys
    ensures TidyPointer(after, m2)
  {
    if PointerOf(m).Some? {
      SiblingsAlike(schemas, after, m, m2);
      ShownAlike(schemas, after, PointerOf(m).value.siblings, PointerOf(m2).value.siblings);
    }
  }

  lemma MergedMembersStayTidy(schemas: Object, after: Object, definition: Object, siblings: Object)
    requires SameKinds(schemas, after)
    requires forall k :: k in definition ==> Tidy(schemas, definition[k])
    requires forall k :: k in siblings ==> Tidy(schemas, siblings[k])
    ensures forall k :: k in Merge(definition, siblings) ==> Tidy(after, Merge(definition, siblings)[k])
  {
    forall k | k in Merge(definition, siblings) { TidyMoves(schemas, after, Merge(definition, siblings)[k]); }
  }

  lemma {:induction false} WalkStaysTidy(schemas: Object, after: Object, v: Value)
    requires TidySchemas(schemas) && SameKinds(schemas, after) && Tidy(schemas, v)
    ensures Tidy(after, Walk(schemas, v))
    decreases v, 0
  {
    match v
    case VArray(items) =>
      forall i | 0 <= i < |items| { WalkStaysTidy(schemas, after, items[i]); }
    case VObject(m) =>
      WalkIsPointwise(schemas, after, v);
      WalkedPointer(schemas, m);
      var m2 := Walk(schemas, v).members;
      TidyPointerMoves(schemas, after, m, m2);
      forall k | k in m { WalkedValueStaysTidy(schemas, after, m[k]); }
    case _ =>
  }

  lemma {:induction false} WalkedValueStaysTidy(schemas: Object, after: Object, v: Value)
    requires TidySchemas(schemas) && SameKinds(schemas, after) && Tidy(schemas, v)
    ensures Tidy(after, WalkValue(schemas, v))
    decreases v, 1
  {
    if v.VObject? && EnumNamed(schemas, v.members).Some? {
      var n := EnumNamed(schemas, v.members).value;
      assert TidySchema(schemas, n);
      var siblings := PointerOf(v.members).value.siblings;
      var merged := Merge(schemas[n].members, siblings);
      assert TidyPointer(schemas, v.members);
      assert PointerOf(merged).None?;
      MergedMembersStayTidy(schemas, after, schemas[n].members, siblings);
    } else {
      WalkStaysTidy(schemas, after, v);
    }
  }

  lemma WalkedSchemasStayTidy(schemas: Object)
    requires TidySchemas(schemas)
    ensures SameKinds(schemas, WalkSchemas(schemas)) && TidySchemas(WalkSchemas(schemas))
  {
    var after := WalkSchemas(schemas);
    forall n | n in schemas { WalkedKind(schemas, n); }
    forall n | n in after ensures TidySchema(after, n) {
      assert TidySchema(schemas, n);
      WalkedDefinitionStaysTidy(schemas, after, n);
    }
  }

  lemma WalkedDefinitionStaysTidy(schemas: Object, after: Object, n: string)
    requires TidySchemas(schemas) && after == WalkSchemas(schemas) && SameKinds(schemas, after) && n in schemas
    ensures Tidy(after, after[n])
  {
    assert TidySchema(schemas, n);
    TidyMoves(schemas, after, schemas[n]);
    if schemas[n].VObject? && "properties" in schemas[n].members {
      var m := schemas[n].members;
      WalkStaysTidy(schemas, after, m["properties"]);
      WalkedDefinition(schemas, n);
      TidyPointerMoves(schemas, after, m, after[n].members);
    }
  }

  // ---------------------------------------------------------------------------------------------
  // The request bodies
  // ---------------------------------------------------------------------------------------------

  /** Rewriting the objects among a tidy object's members, each into one alike, keeps the object alike. */
  lemma MembersAlike(schemas: Object, m: Object, m2: Object)
    requires TidyPointer(schemas, m)
    requires m.Keys == m2.Keys
    requires forall k :: k in m ==> Alike(schemas, schemas, m[k], m2[k])
    requires forall k :: k in m && !m[k].VObject? ==> m2[k] == m[k]
    requires forall k :: k in m && m[k].VObject? ==> m2[k].VObject?
    ensures Pointwise(schemas, schemas, VObject(m), VObject(m2))
  {
  }

  lemma MemberAlike(schemas: Object, m: Object, key: string, w: Value)
    requires TidyPointer(schemas, m) && key in m && key !in {"$ref", "allOf"}
    requires Alike(schemas, schemas, m[key], w)
    ensures Pointwise(schemas, schemas, VObject(m), VObject(m[key := w]))
  {
    forall k | k in m ensures Alike(schemas, schemas, m[k], m[key := w][k]) {
      AlikeSelf(schemas, schemas, m[k]);
    }
  }

  lemma MediaAlike(schemas: Object, media: Value)
    requires TidySchemas(schemas) && Tidy(schemas, media)
    ensures Alike(schemas, schemas, media, InlineMedia(schemas, media))
  {
    AlikeSelf(schemas, schemas, media);
    match BodyNamed(schemas, media)
    case None =>
    case Some(n) =>
      var schema := media.members["schema"];
      assert Tidy(schemas, schema);
      assert TidyPointer(schemas, schema.members);
      ComponentIsLastSegment(schema.members["$ref"].s);
      assert TidySchema(schemas, n);
      assert Copied(schemas, schemas, schema, schemas[n]);
      MemberAlike(schemas, media.members, "schema", schemas[n]);
  }

  lemma ContentAlike(schemas: Object, content: Value)
    requires TidySchemas(schemas) && Tidy(schemas, content)
    ensures Alike(schemas, schemas, content, InlineContent(schemas, content))
  {
    AlikeSelf(schemas, schemas, content);
    if content.VObject? {
      forall t | t in content.members { MediaAlike(schemas, content.members[t]); }
      MembersAlike(schemas, content.members, InlineContent(schemas, content).members);
    }
  }

  lemma RequestBodyAlike(schemas: Object, body: Value)
    requires TidySchemas(schemas) && Tidy(schemas, body)
    ensures Alike(schemas, schemas, body, InlineRequestBody(schemas, body))
  {
    AlikeSelf(schemas, schemas, body);
    if body.VObject? && "content" in body.members {
      ContentAlike(schemas, body.members["content"]);
      MemberAlike(schemas, body.members, "content", InlineContent(schemas, body.members["content"]));
    }
  }

  lemma OperationAlike(schemas: Object, operation: Value)
    requires TidySchemas(schemas) && Tidy(schemas, operation)
    ensures Alike(schemas, schemas, operation, InlineOperation(schemas, operation))
  {
    AlikeSelf(schemas, schemas, operation);
    if operation.VObject? && "requestBody" in operation.members {
      RequestBodyAlike(schemas, operation.members["requestBody"]);
      MemberAlike(schemas, operation.members, "requestBody", InlineRequestBody(schemas, operation.members["requestBody"]));
    }
  }

  lemma PathItemAlike(schemas: Object, item: Value)
    requires TidySchemas(schemas) && Tidy(schemas, item)
    ensures Alike(schemas, schemas, item, InlinePathItem(schemas, item))
  {
    AlikeSelf(schemas, schemas, item);
    if item.VObject? {
      forall verb | verb in item.members { OperationAlike(schemas, item.members[verb]); }
      MembersAlike(schemas, item.members, InlinePathItem(schemas, item).members);
    }
  }

  lemma BodiesAlike(schemas: Object, paths: Object)
    requires TidySchemas(schemas) && Tidy(schemas, VObject(paths))
    ensures Alike(schemas, schemas, VObject(paths), VObject(InlineBodies(schemas, paths)))
  {
    forall path | path in paths { PathItemAlike(schemas, paths[path]); }
    MembersAlike(schemas, paths, InlineBodies(schemas, paths));
  }

  // ---------------------------------------------------------------------------------------------
  // Popping
  // ---------------------------------------------------------------------------------------------

  /** `after` is `before` without some schemas, none of which is mentioned in the value. */
  ghost predicate Quiet(before: Object, after: Object, v: Value) {
    forall n :: n in before && n !in after ==> !Mentions(v, n)
  }

  ghost predicate Popped(before: Object, after: Object) {
    && after.Keys <= before.Keys
    && forall n :: n in after ==> after[n] == before[n] && Quiet(before, after, after[n])
  }

  lemma TextsOfMembers(m: Object)
    ensures forall k :: k in m ==> Texts(m[k]) <= Texts(VObject(m))
  {
  }

  lemma TextsOfItems(items: seq<Value>)
    ensures forall i :: 0 <= i < |items| ==> Texts(items[i]) <= Texts(VArray(items))
  {
  }

  lemma PointerIsMentioned(m: Object)
    requires PointerOf(m).Some?
    ensures Component(PointerOf(m).value.text).Some? ==> Mentions(VObject(m), Component(PointerOf(m).value.text).value)
    ensures Texts(VObject(PointerOf(m).value.siblings)) <= Texts(VObject(m))
  {
    TextsOfMembers(m);
    var p := PointerOf(m).value;
    if "$ref" !in m {
      var items := m["allOf"].items;
      TextsOfItems(items);
      TextsOfMembers(items[0].members);
      assert Texts(p.text) <= Texts(items[0]) <= Texts(m["allOf"]) <= Texts(VObject(m));
    }
    if Component(p.text).Some? {
      assert p.text.s == PREFIX + Component(p.text).value;
      assert p.text.s in Texts(p.text);
    }
    forall s | s in Texts(VObject(p.siblings)) ensures s in Texts(VObject(m)) {
      if s !in p.siblings {
        var k :| k in p.siblings && s in Texts(p.siblings[k]);
        assert s in Texts(m[k]);
      }
    }
  }

  lemma TextsOfUnion(m: Object, siblings: Object)
    ensures Texts(VObject(Union(m, siblings))) <= Texts(VObject(m)) + Texts(VObject(siblings))
  {
    var u := Union(m, siblings);
    forall s | s in Texts(VObject(u)) ensures s in Texts(VObject(m)) + Texts(VObject(siblings)) {
      if s !in u {
        var k :| k in u && s in Texts(u[k]);
        assert k in siblings || s in Texts(m[k]);
      }
    }
  }

  lemma {:induction false} PopResolves(before: Object, after: Object, v: Value, seen: set<string>)
    requires Popped(before, after) && Quiet(before, after, v)
    ensures Resolve(before, v, seen) == Resolve(after, v, seen)
    ensures Resolve(after, v, seen).Known? ==> Quiet(before, after, Resolve(after, v, seen).value)
    decreases before.Keys - seen
  {
    if v.VObject? && PointerOf(v.members).Some? {
      var p := PointerOf(v.members).value;
      var name := Component(p.text);
      PointerIsMentioned(v.members);
      if name.Some? && name.value in before && name.value !in seen {
        var n := name.value;
        assert n in after;
        assert n in before.Keys - seen && n !in before.Keys - (seen + {n});
        PopResolves(before, after, after[n], seen + {n});
        var r := Resolve(after, after[n], seen + {n});
        if r.Known? && r.value.VObject? {
          TextsOfUnion(r.value.members, p.siblings);
          assert Quiet(before, after, VObject(p.siblings));
        }
      }
    }
  }

  lemma {:induction false} PopShowsTheSame(before: Object, after: Object, v: Value, path: seq<Step>)
    requires Popped(before, after) && Quiet(before, after, v)
    ensures At(before, v, path) == At(after, v, path)
    decreases |path|
  {
    PopResolves(before, after, v, {});
    var r := Resolve(after, v, {});
    if r.Known? && |path| > 0 {
      match path[0] {
        case Key(k) =>
          if r.value.VObject? && k in Shown(r.value.members) {
            TextsOfMembers(r.value.members);
            PopShowsTheSame(before, after, r.value.members[k], path[1..]);
          }
        case Index(i) =>
          if r.value.VArray? && i < |r.value.items| {
            TextsOfItems(r.value.items);
            PopShowsTheSame(before, after, r.value.items[i], path[1..]);
          }
      }
    }
  }

  // ---------------------------------------------------------------------------------------------
  // The main results
  // ---------------------------------------------------------------------------------------------

  /** What `inline_enum_refs` leaves behind, whatever order it pops in. */
  ghost predicate CompiledTo(doc: Document, out: Document) {
    var rewritten := Rewritten(doc);
    && out == rewritten.(schemas := out.schemas)
    && out.schemas.Keys <= rewritten.schemas.Keys
    && (forall n :: n in out.schemas ==> out.schemas[n] == rewritten.schemas[n])
    && (forall n :: n in doc.schemas && n !in out.schemas ==> IsSimple(doc.schemas[n]) && !Mentioned(out, n))
    && (forall n :: n in out.schemas && IsSimple(doc.schemas[n]) ==> Mentioned(rewritten, n))
  }

  lemma OutIsPopped(doc: Document, out: Document)
    requires CompiledTo(doc, out)
    ensures Popped(Rewritten(doc).schemas, out.schemas)
    ensures Quiet(Rewritten(doc).schemas, out.schemas, VObject(out.paths))
  {
    TextsOfMembers(out.schemas);
    forall n | n in out.schemas ensures Quiet(Rewritten(doc).schemas, out.schemas, out.schemas[n]) {
      forall g | g in Rewritten(doc).schemas && g !in out.schemas ensures !Mentions(out.schemas[n], g) {
        assert !Mentioned(out, g);
      }
    }
  }

  /** Every object anywhere in `v` whose reference names a schema of `before` names one of `after`. */
  ghost predicate Resolves(before: Object, after: Object, v: Value) {
    match v
    case VArray(items) => forall i :: 0 <= i < |items| ==> Resolves(before, after, items[i])
    case VObject(m) => PointerStays(before, after, m) && forall k :: k in m ==> Resolves(before, after, m[k])
    case _ => true
  }

  predicate PointerStays(before: Object, after: Object, m: Object) {
    PointerOf(m).Some? && Component(PointerOf(m).value.text).Some? && Component(PointerOf(m).value.text).value in before ==>
      Component(PointerOf(m).value.text).value in after
  }

  lemma {:induction false} QuietResolves(before: Object, after: Object, v: Value)
    requires Quiet(before, after, v)
    ensures Resolves(before, after, v)
  {
    match v
    case VArray(items) =>
      TextsOfItems(items);
      forall i | 0 <= i < |items| { QuietResolves(before, after, items[i]); }
    case VObject(m) =>
      TextsOfMembers(m);
      if PointerOf(m).Some? {
        PointerIsMentioned(m);
      }
      forall k | k in m { QuietResolves(before, after, m[k]); }
    case _ =>
  }

  /** No reference left anywhere in the paths or the schemas dangles that named a schema before. */
  lemma NoReferenceDangles(doc: Document, out: Document)
    requires CompiledTo(doc, out)
    ensures Resolves(doc.schemas, out.schemas, VObject(out.paths))
    ensures forall n :: n in out.schemas ==> Resolves(doc.schemas, out.schemas, out.schemas[n])
  {
    OutIsPopped(doc, out);
    var before := Rewritten(doc).schemas;
    assert Quiet(doc.schemas, out.schemas, VObject(out.paths)) by {
      assert Quiet(before, out.schemas, VObject(out.paths)) && before.Keys == doc.schemas.Keys;
    }
    QuietResolves(doc.schemas, out.schemas, VObject(out.paths));
    forall n | n in out.schemas ensures Resolves(doc.schemas, out.schemas, out.schemas[n]) {
      assert Quiet(before, out.schemas, out.schemas[n]) && before.Keys == doc.schemas.Keys;
      QuietResolves(doc.schemas, out.schemas, out.schemas[n]);
    }
  }

  /** Every path of every operation, and of every component schema kept, shows the same before and after. */
  lemma InliningKeepsMeaning(doc: Document, out: Document, path: seq<Step>)
    requires TidyDocument(doc) && CompiledTo(doc, out)
    ensures At(doc.schemas, VObject(doc.paths), path) == At(out.schemas, VObject(out.paths), path)
    ensures forall n :: n in out.schemas ==> At(doc.schemas, doc.schemas[n], path) == At(out.schemas, out.schemas[n], path)
  {
    var schemas := WalkSchemas(doc.schemas);
    var walked := WalkPaths(doc.schemas, doc.paths);
    WalkedSchemasAreTwins(doc.schemas);
    WalkedSchemasStayTidy(doc.schemas);
    assert Walk(doc.schemas, VObject(doc.paths)) == VObject(walked);
    WalkIsPointwise(doc.schemas, schemas, VObject(doc.paths));
    WalkStaysTidy(doc.schemas, schemas, VObject(doc.paths));
    AlikeShowTheSame(doc.schemas, schemas, VObject(doc.paths), VObject(walked), path);

    BodiesAlike(schemas, walked);
    forall n | n in schemas { AlikeSelf(schemas, schemas, schemas[n]); }
    AlikeShowTheSame(schemas, schemas, VObject(walked), VObject(out.paths), path);

    OutIsPopped(doc, out);
    PopShowsTheSame(schemas, out.schemas, VObject(out.paths), path);
    forall n | n in out.schemas ensures At(doc.schemas, doc.schemas[n], path) == At(out.schemas, out.schemas[n], path) {
      AlikeShowTheSame(doc.schemas, schemas, doc.schemas[n], schemas[n], path);
      PopShowsTheSame(schemas, out.schemas, out.schemas[n], path);
    }
  }

  lemma TwinsSelf(schemas: Object)
    ensures Twins(schemas, schemas)
  {
    forall n | n in schemas { AlikeSelf(schemas, schemas, schemas[n]); }
  }

  /**
   Inlining one enum keeps what every path shows exactly when nothing beside the reference repeats a
   keyword of the enum.
   */
  lemma EnumInliningIsExact(schemas: Object, m: Object)
    requires EnumNamed(schemas, m).Some?
    requires Component(PointerOf(m).value.text) == EnumNamed(schemas, m)
    requires Titled(schemas[EnumNamed(schemas, m).value]) && "allOf" !in PointerOf(m).value.siblings
    ensures (forall path :: At(schemas, VObject(m), path) == At(schemas, WalkValue(schemas, VObject(m)), path))
            <==> Shown(schemas[EnumNamed(schemas, m).value].members) !! Shown(PointerOf(m).value.siblings)
  {
    var n, p, w := EnumNamed(schemas, m).value, PointerOf(m).value, WalkValue(schemas, VObject(m));
    if Shown(schemas[n].members) !! Shown(p.siblings) {
      TwinsSelf(schemas);
      assert Inlined(schemas, VObject(m), w);
      forall path ensures At(schemas, VObject(m), path) == At(schemas, w, path) {
        AlikeShowTheSame(schemas, schemas, VObject(m), w, path);
      }
    } else {
      assert Resolve(schemas, schemas[n], {} + {n}) == Known(schemas[n]);
      assert Resolve(schemas, VObject(m), {}) == Clash;
      assert PointerOf(w.members).None?;
      assert Resolve(schemas, w, {}) == Known(w);
      assert At(schemas, VObject(m), []) != At(schemas, w, []);
    }
  }

  /** Copying one body schema keeps what every path shows exactly when only notes stood beside the reference. */
  lemma BodyInliningIsExact(schemas: Object, media: Value)
    requires BodyNamed(schemas, media).Some?
    requires Component(media.members["schema"].members["$ref"]) == BodyNamed(schemas, media)
    requires Titled(schemas[BodyNamed(schemas, media).value])
    requires PointerOf(schemas[BodyNamed(schemas, media).value].members).None?
    ensures (forall path :: At(schemas, media.members["schema"], path)
                            == At(schemas, InlineMedia(schemas, media).members["schema"], path))
            <==> Shown(PointerOf(media.members["schema"].members).value.siblings) == {}
  {
    var n, v := BodyNamed(schemas, media).value, media.members["schema"];
    var siblings := PointerOf(v.members).value.siblings;
    assert InlineMedia(schemas, media).members["schema"] == schemas[n];
    if Shown(siblings) == {} {
      TwinsSelf(schemas);
      assert Copied(schemas, schemas, v, schemas[n]);
      forall path ensures At(schemas, v, path) == At(schemas, schemas[n], path) {
        AlikeShowTheSame(schemas, schemas, v, schemas[n], path);
      }
    } else {
      CopyLosesSiblings(schemas, v, n, siblings);
      assert At(schemas, v, []) != At(schemas, schemas[n], []);
    }
  }

  lemma CopyLosesSiblings(schemas: Object, v: Value, n: string, siblings: Object)
    requires v.VObject? && PointerOf(v.members).Some? && PointerOf(v.members).value.siblings == siblings
    requires Component(PointerOf(v.members).value.text) == Some(n) && n in schemas && schemas[n].VObject?
    requires PointerOf(schemas[n].members).None? && Shown(siblings) != {}
    ensures At(schemas, v, []) != At(schemas, schemas[n], [])
  {
    var m := schemas[n].members;
    assert Resolve(schemas, schemas[n], {} + {n}) == Known(schemas[n]);
    assert Resolve(schemas, schemas[n], {}) == Known(schemas[n]);
    assert Resolve(schemas, v, {}) == Beside(Known(schemas[n]), siblings);
    if Shown(m) !! Shown(siblings) {
      ShownUnion(m, siblings);
      var k :| k in Shown(siblings);
      assert k in Shown(Union(m, siblings)) && k !in Shown(m);
    }
  }

  // --- which enums are left behind a reference ---

  /** No object anywhere in `v`, nor `v` itself, refers to a simple enum. */
  ghost predicate EnumFree(schemas: Object, v: Value) {
    match v
    case VArray(items) => forall i :: 0 <= i < |items| ==> EnumFree(schemas, items[i])
    case VObject(m) => EnumNamed(schemas, m).None? && forall k :: k in m ==> EnumFree(schemas, m[k])
    case _ => true
  }

  /**
   Every enum reference in `v` is the value of a key: none is `v` itself or the item of a list, which
   is how an optional enum field is published, and none is left by a reference that is replaced.
   */
  ghost predicate OnlyBehindKeys(schemas: Object, v: Value)
    decreases v, 0
  {
    match v
    case VArray(items) => forall i :: 0 <= i < |items| ==> OnlyBehindKeys(schemas, items[i])
    case VObject(m) => EnumNamed(schemas, m).None? && forall k :: k in m ==> ReplacedWell(schemas, m[k])
    case _ => true
  }

  ghost predicate ReplacedWell(schemas: Object, v: Value)
    decreases v, 1
  {
    if v.VObject? && EnumNamed(schemas, v.members).Some? then
      var merged := Merge(schemas[EnumNamed(schemas, v.members).value].members, PointerOf(v.members).value.siblings);
      forall k :: k in merged ==> EnumFree(schemas, merged[k])
    else OnlyBehindKeys(schemas, v)
  }

  /** The walk leaves no enum behind a reference, anywhere, exactly when every enum reference was the value of a key. */
  lemma {:induction false} WalkShowsEveryEnum(schemas: Object, v: Value)
    requires Tidy(schemas, v)
    ensures EnumFree(schemas, Walk(schemas, v)) <==> OnlyBehindKeys(schemas, v)
    decreases v, 0
  {
    match v
    case VArray(items) =>
      var w := Walk(schemas, v).items;
      forall i | 0 <= i < |items| ensures w[i] == Walk(schemas, items[i]) && (EnumFree(schemas, w[i]) <==> OnlyBehindKeys(schemas, items[i])) {
        WalkShowsEveryEnum(schemas, items[i]);
      }
    case VObject(m) =>
      WalkedPointer(schemas, m);
      var w := Walk(schemas, v).members;
      assert EnumNamed(schemas, w) == EnumNamed(schemas, m);
      forall k | k in m ensures EnumFree(schemas, w[k]) <==> ReplacedWell(schemas, m[k]) {
        WalkedValueShowsEveryEnum(schemas, m[k]);
      }
      assert w.Keys == m.Keys;
    case _ =>
  }

  lemma {:induction false} WalkedValueShowsEveryEnum(schemas: Object, v: Value)
    requires Tidy(schemas, v)
    ensures EnumFree(schemas, WalkValue(schemas, v)) <==> ReplacedWell(schemas, v)
    decreases v, 1
  {
    if v.VObject? && EnumNamed(schemas, v.members).Some? {
      var merged := WalkValue(schemas, v).members;
      assert TidyPointer(schemas, v.members);
      assert PointerOf(merged).None?;
    } else {
      WalkShowsEveryEnum(schemas, v);
    }
  }

  /** So it is for the properties of every schema in a compiled document. */
  lemma CompiledPropertiesShowEveryEnum(doc: Document, out: Document, n: string)
    requires TidyDocument(doc) && CompiledTo(doc, out) && n in out.schemas
    requires doc.schemas[n].VObject? && "properties" in doc.schemas[n].members
    ensures out.schemas[n].VObject? && "properties" in out.schemas[n].members
    ensures EnumFree(doc.schemas, out.schemas[n].members["properties"])
            <==> OnlyBehindKeys(doc.schemas, doc.schemas[n].members["properties"])
  {
    assert TidySchema(doc.schemas, n);
    WalkShowsEveryEnum(doc.schemas, doc.schemas[n].members["properties"]);
    assert out.schemas[n] == WalkDefinition(doc.schemas, doc.schemas[n]);
  }

  /** And no request body is left a reference to an object schema: its fields are in place. */
  lemma BodyShowsItsFields(schemas: Object, media: Value)
    requires TidySchemas(schemas)
    ensures BodyNamed(schemas, InlineMedia(schemas, media)).None?
    ensures BodyNamed(schemas, media).Some? ==>
              InlineMedia(schemas, media) == VObject(media.members["schema" := schemas[BodyNamed(schemas, media).value]])
  {
    if BodyNamed(schemas, media).Some? {
      assert TidySchema(schemas, BodyNamed(schemas, media).value);
    }
  }

  // --- what stands in the place of a reference ---

  /** The reference to a schema as Pydantic writes it: bare, or the only item of an `allOf`, with something beside it. */
  function Bare(name: string, siblings: Object): Object {
    siblings["$ref" := VText("#/components/schemas/" + name)]
  }

  function Wrapped(name: string, siblings: Object): Object {
    siblings["allOf" := VArray([VObject(map["$ref" := VText("#/components/schemas/" + name)])])]
  }

  /** An enum without its title, and what stood beside its reference; where both say something, the latter. */
  predicate EnumWith(definition: Object, siblings: Object, w: Value) {
    && w.VObject?
    && (forall k :: k in siblings ==> k in w.members && w.members[k] == siblings[k])
    && (forall k :: k in definition && k !in siblings && k != "title" ==> k in w.members && w.members[k] == definition[k])
    && (forall k :: k in w.members ==> k in siblings || (k in definition && k != "title"))
  }

  lemma BothNameTheSchema(schemas: Object, name: string, siblings: Object)
    requires name in schemas && IsSimple(schemas[name]) && '/' !in name && "$ref" !in siblings && "allOf" !in siblings
    ensures EnumNamed(schemas, Bare(name, siblings)) == EnumNamed(schemas, Wrapped(name, siblings)) == Some(name)
    ensures PointerOf(Bare(name, siblings)).value.siblings == PointerOf(Wrapped(name, siblings)).value.siblings == siblings
  {
    var text := "#/components/schemas/" + name;
    assert text[|PREFIX|..] == name;
    ComponentIsLastSegment(text);
    assert Bare(name, siblings) - {"$ref"} == siblings;
    assert Wrapped(name, siblings) - {"allOf"} == siblings;
    assert Wrapped(name, siblings)["allOf"].items[0].members["$ref"] == VText(text);
  }

  /** Either form of a reference to an enum becomes the enum with what stood beside it. */
  lemma EnumStandsInPlace(schemas: Object, name: string, siblings: Object)
    requires name in schemas && '/' !in name && "$ref" !in siblings && "allOf" !in siblings
    requires schemas[name].VObject? && "enum" in schemas[name].members
    requires schemas[name].members.Keys <= {"type", "enum", "title", "description"}
    ensures EnumWith(schemas[name].members, siblings, WalkValue(schemas, VObject(Bare(name, siblings))))
    ensures EnumWith(schemas[name].members, siblings, WalkValue(schemas, VObject(Wrapped(name, siblings))))
  {
    BothNameTheSchema(schemas, name, siblings);
  }

  /** Of a schema only the properties are rewritten, each for itself; and of a property that refers to no enum, its members. */
  lemma OnlyPropertiesAreWalked(doc: Document, out: Document, name: string, property: string)
    requires CompiledTo(doc, out) && name in out.schemas
    requires doc.schemas[name].VObject? && "properties" in doc.schemas[name].members
    requires doc.schemas[name].members["properties"].VObject? && property in doc.schemas[name].members["properties"].members
    ensures var m := doc.schemas[name].members;
      && out.schemas[name].VObject? && out.schemas[name].members.Keys == m.Keys
      && (forall k :: k in m && k != "properties" ==> out.schemas[name].members[k] == m[k])
      && out.schemas[name].members["properties"].VObject?
      && out.schemas[name].members["properties"].members.Keys == m["properties"].members.Keys
      && out.schemas[name].members["properties"].members[property] == WalkValue(doc.schemas, m["properties"].members[property])
  {
  }

  lemma OthersAreNotWalked(doc: Document, out: Document, name: string)
    requires CompiledTo(doc, out) && name in out.schemas
    requires doc.schemas[name].VObject? ==> "properties" !in doc.schemas[name].members
    ensures out.schemas[name] == doc.schemas[name]
  {
  }

  // --- the request bodies of a compiled document ---

  function Child(v: Value, key: string): Option<Value> {
    if v.VObject? && key in v.members then Some(v.members[key]) else None
  }

  /** A media type of the request body of one operation of a path. */
  function MediaAt(item: Value, verb: string, mime: string): Option<Value> {
    match Child(item, verb)
    case None => None
    case Some(operation) =>
      match Child(operation, "requestBody")
      case None => None
      case Some(body) =>
        match Child(body, "content")
        case None => None
        case Some(content) => Child(content, mime)
  }

  /** The schema of a media type is a reference to a schema of type object. */
  predicate HidesFields(schemas: Object, media: Value) {
    && Child(media, "schema").Some? && Child(Child(media, "schema").value, "$ref").Some?
    && exists n :: n in schemas && Child(Child(media, "schema").value, "$ref") == Some(VText("#/components/schemas/" + n))
                   && Child(schemas[n], "type") == Some(VText("object"))
  }

  lemma TidyChild(schemas: Object, v: Value, key: string)
    requires Tidy(schemas, v)
    ensures Child(v, key).Some? ==> Tidy(schemas, Child(v, key).value)
  {
  }

  lemma TidyMedia(schemas: Object, item: Value, verb: string, mime: string)
    requires Tidy(schemas, item)
    ensures MediaAt(item, verb, mime).Some? ==> Tidy(schemas, MediaAt(item, verb, mime).value)
  {
    TidyChild(schemas, item, verb);
    if Child(item, verb).Some? {
      var operation := Child(item, verb).value;
      TidyChild(schemas, operation, "requestBody");
      if Child(operation, "requestBody").Some? {
        var body := Child(operation, "requestBody").value;
        TidyChild(schemas, body, "content");
        if Child(body, "content").Some? {
          TidyChild(schemas, Child(body, "content").value, mime);
        }
      }
    }
  }

  /** The compiler reads exactly the references that hide fields. */
  lemma BodyNamedExactly(schemas: Object, media: Value)
    requires Tidy(schemas, media)
    ensures HidesFields(schemas, media) <==> BodyNamed(schemas, media).Some?
    ensures BodyNamed(schemas, media).Some? ==>
              Child(Child(media, "schema").value, "$ref") == Some(VText("#/components/schemas/" + BodyNamed(schemas, media).value))
  {
    if Child(media, "schema").Some? && Child(Child(media, "schema").value, "$ref").Some? {
      TidyChild(schemas, media, "schema");
      var schema := Child(media, "schema").value;
      assert TidyPointer(schemas, schema.members);
      var text := schema.members["$ref"].s;
      ComponentIsLastSegment(text);
      var n := text[|PREFIX|..];
      assert text == PREFIX + n;
      if HidesFields(schemas, media) {
        var x :| x in schemas && Child(schema, "$ref") == Some(VText("#/components/schemas/" + x))
                 && Child(schemas[x], "type") == Some(VText("object"));
        assert text[|PREFIX|..] == x;
      }
    }
  }

  lemma InlinedMediaAt(schemas: Object, item: Value, verb: string, mime: string)
    ensures MediaAt(InlinePathItem(schemas, item), verb, mime)
         == match MediaAt(item, verb, mime)
            case None => None
            case Some(media) => Some(InlineMedia(schemas, media))
  {
  }

  /** `after` has the object schema that `before` refers to in place of the reference; otherwise it is `before`. */
  predicate InPlace(schemas: Object, before: Value, after: Value) {
    if HidesFields(schemas, before) then
      exists n :: n in schemas && Child(Child(before, "schema").value, "$ref") == Some(VText("#/components/schemas/" + n))
                  && after == VObject(before.members["schema" := schemas[n]])
    else after == before
  }

  lemma InlinedMediaShows(schemas: Object, media: Value)
    requires TidySchemas(schemas) && Tidy(schemas, media)
    ensures !HidesFields(schemas, InlineMedia(schemas, media)) && InPlace(schemas, media, InlineMedia(schemas, media))
  {
    BodyNamedExactly(schemas, media);
    match BodyNamed(schemas, media)
    case None =>
    case Some(n) =>
      assert TidySchema(schemas, n);
      assert PointerOf(schemas[n].members).None?;
  }

  lemma SameFieldsHidden(schemas: Object, after: Object, media: Value)
    requires SameKinds(schemas, after)
    ensures HidesFields(schemas, media) <==> HidesFields(after, media)
  {
    forall n | n in schemas
      ensures Child(schemas[n], "type") == Some(VText("object")) <==> Child(after[n], "type") == Some(VText("object"))
    {
      assert SameKind(schemas[n], after[n]);
      assert IsObjectSchema(schemas[n]) == IsObjectSchema(after[n]);
    }
  }

  lemma InlinedItemShows(schemas: Object, item: Value, verb: string, mime: string)
    requires TidySchemas(schemas) && Tidy(schemas, item)
    ensures var before, after := MediaAt(item, verb, mime), MediaAt(InlinePathItem(schemas, item), verb, mime);
      && (before.Some? <==> after.Some?)
      && (after.Some? ==> !HidesFields(schemas, after.value) && InPlace(schemas, before.value, after.value))
  {
    InlinedMediaAt(schemas, item, verb, mime);
    TidyMedia(schemas, item, verb, mime);
    if MediaAt(item, verb, mime).Some? {
      InlinedMediaShows(schemas, MediaAt(item, verb, mime).value);
    }
  }

  /**
   In a compiled document no request body is a reference to an object schema: where the walked paths
   had one, the walked schema itself stands, and nothing else about the body has changed.
   */
  lemma BodiesAreInPlace(doc: Document, out: Document, path: string, verb: string, mime: string)
    requires TidyDocument(doc) && CompiledTo(doc, out) && path in out.paths
    ensures path in doc.paths
    ensures var before, after := MediaAt(WalkValue(doc.schemas, doc.paths[path]), verb, mime), MediaAt(out.paths[path], verb, mime);
      && (before.Some? <==> after.Some?)
      && (after.Some? ==>
            !HidesFields(doc.schemas, after.value) && InPlace(WalkSchemas(doc.schemas), before.value, after.value))
  {
    var schemas := WalkSchemas(doc.schemas);
    assert Tidy(doc.schemas, doc.paths[path]);
    WalkedSchemasStayTidy(doc.schemas);
    WalkedValueStaysTidy(doc.schemas, schemas, doc.paths[path]);
    InlinedItemShows(schemas, WalkValue(doc.schemas, doc.paths[path]), verb, mime);
    var after := MediaAt(out.paths[path], verb, mime);
    if after.Some? {
      SameFieldsHidden(doc.schemas, schemas, after.value);
    }
  }

  // --- the enums of a compiled document's paths ---

  /** No schema is both an enum and an object. */
  predicate KindsApart(schemas: Object) {
    forall n :: n in schemas ==> !(IsSimple(schemas[n]) && IsObjectSchema(schemas[n]))
  }

  /** What was put in the place of the reference shows every enum. */
  ghost predicate BodyFree(schemas: Object, after: Object, media: Value) {
    BodyNamed(after, media).Some? ==> EnumFree(schemas, after[BodyNamed(after, media).value])
  }

  ghost predicate ContentFree(schemas: Object, after: Object, content: Value) {
    content.VObject? ==> forall t :: t in content.members ==> BodyFree(schemas, after, content.members[t])
  }

  ghost predicate RequestBodyFree(schemas: Object, after: Object, body: Value) {
    Child(body, "content").Some? ==> ContentFree(schemas, after, Child(body, "content").value)
  }

  ghost predicate OperationFree(schemas: Object, after: Object, operation: Value) {
    Child(operation, "requestBody").Some? ==> RequestBodyFree(schemas, after, Child(operation, "requestBody").value)
  }

  ghost predicate ItemFree(schemas: Object, after: Object, item: Value) {
    item.VObject? ==> forall verb :: verb in item.members ==> OperationFree(schemas, after, item.members[verb])
  }

  /** One member rewritten: the object shows every enum exactly if it did and what was rewritten does. */
  lemma MemberShows(schemas: Object, m: Object, key: string, w: Value, more: bool)
    requires key in m && key !in {"$ref", "allOf"}
    requires EnumFree(schemas, w) <==> EnumFree(schemas, m[key]) && more
    ensures EnumFree(schemas, VObject(m[key := w])) <==> EnumFree(schemas, VObject(m)) && more
  {
    var m2 := m[key := w];
    assert EnumNamed(schemas, m2) == EnumNamed(schemas, m);
    if EnumFree(schemas, VObject(m)) && more {
      forall k | k in m2 ensures EnumFree(schemas, m2[k]) {
      }
    }
    if EnumFree(schemas, VObject(m2)) {
      assert EnumFree(schemas, m2[key]);
      forall k | k in m ensures EnumFree(schemas, m[k]) {
        assert EnumFree(schemas, m2[k]);
      }
    }
  }

  lemma PlainReferenceIsFree(schemas: Object, schema: Value)
    requires schema.VObject? && "$ref" in schema.members && schema.members["$ref"].VText?
    requires EnumNamed(schemas, schema.members).None? && Shown(schema.members - {"$ref"}) == {}
    ensures EnumFree(schemas, schema)
  {
    forall k | k in schema.members ensures EnumFree(schemas, schema.members[k]) {
      if k != "$ref" {
        assert k in (schema.members - {"$ref"});
        assert k !in Shown(schema.members - {"$ref"});
      }
    }
  }

  lemma InlinedMediaIsFree(schemas: Object, after: Object, media: Value)
    requires SameKinds(schemas, after) && KindsApart(schemas) && TidySchemas(after) && Tidy(after, media)
    ensures EnumFree(schemas, InlineMedia(after, media)) <==> EnumFree(schemas, media) && BodyFree(schemas, after, media)
  {
    if BodyNamed(after, media).Some? {
      var n, schema := BodyNamed(after, media).value, media.members["schema"];
      assert SameKind(schemas[n], after[n]);
      TidyChild(after, media, "schema");
      assert TidyPointer(after, schema.members);
      ComponentIsLastSegment(schema.members["$ref"].s);
      assert EnumNamed(schemas, schema.members).None?;
      PlainReferenceIsFree(schemas, schema);
      MemberShows(schemas, media.members, "schema", after[n], EnumFree(schemas, after[n]));
    }
  }

  /** Every member rewritten: likewise, when no reference is among them. */
  lemma MembersShow(schemas: Object, m: Object, m2: Object, more: set<string>)
    requires m.Keys == m2.Keys && EnumNamed(schemas, m2) == EnumNamed(schemas, m)
    requires forall k :: k in m ==> (EnumFree(schemas, m2[k]) <==> EnumFree(schemas, m[k]) && k in more)
    ensures EnumFree(schemas, VObject(m2)) <==> EnumFree(schemas, VObject(m)) && m.Keys <= more
  {
    if EnumFree(schemas, VObject(m2)) {
      forall k | k in m ensures EnumFree(schemas, m[k]) && k in more {
        assert EnumFree(schemas, m2[k]);
      }
    }
  }

  lemma SameReference(schemas: Object, after: Object, m: Object, m2: Object)
    requires TidyPointer(after, m) && m.Keys == m2.Keys
    requires forall k :: k in m ==> m[k].VObject? || m2[k] == m[k]
    requires forall k :: k in m && m[k].VObject? ==> m2[k].VObject?
    ensures EnumNamed(schemas, m2) == EnumNamed(schemas, m)
  {
  }

  lemma InlinedContentIsFree(schemas: Object, after: Object, content: Value)
    requires SameKinds(schemas, after) && KindsApart(schemas) && TidySchemas(after) && Tidy(after, content)
    ensures EnumFree(schemas, InlineContent(after, content)) <==> EnumFree(schemas, content) && ContentFree(schemas, after, content)
  {
    if content.VObject? {
      var m, m2 := content.members, InlineContent(after, content).members;
      ghost var more := set t | t in m && BodyFree(schemas, after, m[t]);
      forall t | t in m { InlinedMediaIsFree(schemas, after, m[t]); }
      SameReference(schemas, after, m, m2);
      MembersShow(schemas, m, m2, more);
    }
  }

  lemma InlinedRequestBodyIsFree(schemas: Object, after: Object, body: Value)
    requires SameKinds(schemas, after) && KindsApart(schemas) && TidySchemas(after) && Tidy(after, body)
    ensures EnumFree(schemas, InlineRequestBody(after, body)) <==> EnumFree(schemas, body) && RequestBodyFree(schemas, after, body)
  {
    if Child(body, "content").Some? {
      var content := body.members["content"];
      InlinedContentIsFree(schemas, after, content);
      MemberShows(schemas, body.members, "content", InlineContent(after, content), ContentFree(schemas, after, content));
    }
  }

  lemma InlinedOperationIsFree(schemas: Object, after: Object, operation: Value)
    requires SameKinds(schemas, after) && KindsApart(schemas) && TidySchemas(after) && Tidy(after, operation)
    ensures EnumFree(schemas, InlineOperation(after, operation))
            <==> EnumFree(schemas, operation) && OperationFree(schemas, after, operation)
  {
    if Child(operation, "requestBody").Some? {
      var body := operation.members["requestBody"];
      InlinedRequestBodyIsFree(schemas, after, body);
      MemberShows(schemas, operation.members, "requestBody", InlineRequestBody(after, body), RequestBodyFree(schemas, after, body));
    }
  }

  lemma InlinedItemIsFree(schemas: Object, after: Object, item: Value)
    requires SameKinds(schemas, after) && KindsApart(schemas) && TidySchemas(after) && Tidy(after, item)
    ensures EnumFree(schemas, InlinePathItem(after, item)) <==> EnumFree(schemas, item) && ItemFree(schemas, after, item)
  {
    if item.VObject? {
      var m, m2 := item.members, InlinePathItem(after, item).members;
      ghost var more := set verb | verb in m && OperationFree(schemas, after, m[verb]);
      forall verb | verb in m { InlinedOperationIsFree(schemas, after, m[verb]); }
      SameReference(schemas, after, m, m2);
      MembersShow(schemas, m, m2, more);
    }
  }

  lemma ItemFreeByMedia(schemas: Object, after: Object, item: Value)
    ensures ItemFree(schemas, after, item)
            <==> forall verb, mime :: MediaAt(item, verb, mime).Some? ==> BodyFree(schemas, after, MediaAt(item, verb, mime).value)
  {
    if !ItemFree(schemas, after, item) {
      var verb :| verb in item.members && !OperationFree(schemas, after, item.members[verb]);
      var content := Child(Child(item.members[verb], "requestBody").value, "content").value;
      var mime :| mime in content.members && !BodyFree(schemas, after, content.members[mime]);
      assert MediaAt(item, verb, mime) == Some(content.members[mime]);
    }
  }

  /**
   The path of a compiled document shows every enum exactly when every enum reference in it was the
   value of a key, and so it is in each schema put in place of a request body.
   */
  lemma CompiledPathsShowEveryEnum(doc: Document, out: Document, path: string)
    requires TidyDocument(doc) && CompiledTo(doc, out) && KindsApart(doc.schemas) && path in out.paths
    ensures path in doc.paths
    ensures EnumFree(doc.schemas, out.paths[path])
            <==> && ReplacedWell(doc.schemas, doc.paths[path])
                 && forall verb, mime :: var media := MediaAt(WalkValue(doc.schemas, doc.paths[path]), verb, mime);
                      media.Some? ==> BodyFree(doc.schemas, WalkSchemas(doc.schemas), media.value)
  {
    var schemas := WalkSchemas(doc.schemas);
    var item := WalkValue(doc.schemas, doc.paths[path]);
    assert Tidy(doc.schemas, doc.paths[path]);
    WalkedSchemasStayTidy(doc.schemas);
    WalkedValueStaysTidy(doc.schemas, schemas, doc.paths[path]);
    WalkedValueShowsEveryEnum(doc.schemas, doc.paths[path]);
    InlinedItemIsFree(doc.schemas, schemas, item);
    ItemFreeByMedia(doc.schemas, schemas, item);
  }

  // --- what is popped ---

  /** What stands at a path of a value as it is written, no reference followed. */
  function Raw(v: Value, path: seq<Step>): Option<Value>
    decreases |path|
  {
    if |path| == 0 then Some(v)
    else
      match path[0]
      case Key(k) => if v.VObject? && k in v.members then Raw(v.members[k], path[1..]) else None
      case Index(i) => if v.VArray? && i < |v.items| then Raw(v.items[i], path[1..]) else None
  }

  /** There stands the text, or an object with the text for a key. */
  predicate Writes(v: Value, path: seq<Step>, text: string) {
    match Raw(v, path)
    case Some(VText(s)) => s == text
    case Some(VObject(m)) => text in m
    case _ => false
  }

  lemma WritesBelow(v: Value, step: Step, below: Value, path: seq<Step>, text: string)
    requires Raw(v, [step]) == Some(below)
    ensures Writes(v, [step] + path, text) <==> Writes(below, path, text)
  {
    assert ([step] + path)[1..] == path;
    assert [step][1..] == [];
  }

  lemma {:induction false} TextsExactly(v: Value, text: string)
    ensures text in Texts(v) <==> exists path :: Writes(v, path, text)
    decreases v
  {
    if text in Texts(v) {
      TextIsWritten(v, text);
    }
    if path :| Writes(v, path, text) {
      WrittenIsText(v, path, text);
    }
  }

  lemma {:induction false} TextIsWritten(v: Value, text: string)
    requires text in Texts(v)
    ensures exists path :: Writes(v, path, text)
    decreases v
  {
    match v {
      case VArray(items) =>
        var i :| 0 <= i < |items| && text in Texts(items[i]);
        TextIsWritten(items[i], text);
        var path :| Writes(items[i], path, text);
        WritesBelow(v, Index(i), items[i], path, text);
      case VObject(m) =>
        if text in m {
          assert Writes(v, [], text);
        } else {
          var k :| k in m && text in Texts(m[k]);
          TextIsWritten(m[k], text);
          var path :| Writes(m[k], path, text);
          WritesBelow(v, Key(k), m[k], path, text);
        }
      case VText(_) =>
        assert Writes(v, [], text);
      case _ =>
    }
  }

  lemma {:induction false} WrittenIsText(v: Value, path: seq<Step>, text: string)
    requires Writes(v, path, text)
    ensures text in Texts(v)
    decreases |path|
  {
    if |path| > 0 {
      match path[0] {
        case Key(k) => WrittenIsText(v.members[k], path[1..], text);
        case Index(i) => WrittenIsText(v.items[i], path[1..], text);
      }
    }
  }

  /** The text is written somewhere in one of the four parts of the document. */
  ghost predicate Somewhere(doc: Document, text: string) {
    exists part, path :: part in [doc.rest, doc.components, doc.paths, doc.schemas] && Writes(VObject(part), path, text)
  }

  lemma MentionedExactly(doc: Document, name: string)
    ensures Mentioned(doc, name) <==> Somewhere(doc, "#/components/schemas/" + name)
  {
    var text := "#/components/schemas/" + name;
    var parts := [doc.rest, doc.components, doc.paths, doc.schemas];
    forall part | part in parts { TextsExactly(VObject(part), text); }
    if Mentioned(doc, name) {
      var part :| part in parts && text in Texts(VObject(part));
      var path :| Writes(VObject(part), path, text);
    }
  }

  /**
   Popped is only an enum of nothing but type, values, title and description whose reference is
   written nowhere in the document that is left; and kept is no such enum that was written nowhere
   before.
   */
  lemma PopsExactly(doc: Document, out: Document, name: string)
    requires CompiledTo(doc, out) && name in doc.schemas
    ensures var schema, text := doc.schemas[name], "#/components/schemas/" + name;
      var simple := schema.VObject? && "enum" in schema.members
                    && schema.members.Keys <= {"type", "enum", "title", "description"};
      && (name !in out.schemas ==> simple && !Somewhere(out, text))
      && (name in out.schemas ==> !simple || Somewhere(Rewritten(doc), text))
  {
    MentionedExactly(out, name);
    MentionedExactly(Rewritten(doc), name);
  }

  /** An item of a list is never replaced: whatever way it refers to an enum, it still does after the walk. */
  lemma ListReferenceStaysHidden(schemas: Object, v: Value, i: nat)
    requires v.VArray? && Tidy(schemas, v) && i < |v.items|
    requires v.items[i].VObject? && EnumNamed(schemas, v.items[i].members).Some?
    ensures var w := WalkValue(schemas, v);
      && w.VArray? && |w.items| == |v.items| && w.items[i].VObject?
      && EnumNamed(schemas, w.items[i].members) == EnumNamed(schemas, v.items[i].members)
  {
    assert Tidy(schemas, v.items[i]);
    WalkedPointer(schemas, v.items[i].members);
    WalkKeepsLists(schemas, v);
    assert Walk(schemas, v).items[i] == Walk(schemas, v.items[i]);
  }

  // ---------------------------------------------------------------------------------------------
  // The script's own dictionaries
  // ---------------------------------------------------------------------------------------------

  lemma TextsShrink(small: Object, large: Object)
    requires small.Keys <= large.Keys && forall k :: k in small ==> small[k] == large[k]
    ensures Texts(VObject(small)) <= Texts(VObject(large))
  {
    forall s | s in Texts(VObject(small)) ensures s in Texts(VObject(large)) {
      if s !in small {
        var k :| k in small && s in Texts(small[k]);
        assert s in Texts(large[k]);
      }
    }
  }

  lemma MentionsShrink(doc: Document, less: Document)
    requires less == doc.(schemas := less.schemas) && less.schemas.Keys <= doc.schemas.Keys
    requires forall n :: n in less.schemas ==> less.schemas[n] == doc.schemas[n]
    ensures forall n :: Mentioned(less, n) ==> Mentioned(doc, n)
  {
    TextsShrink(less.schemas, doc.schemas);
  }

  /** What popping has left of `before`, with the names in `todo` still to be looked at. */
  ghost predicate Popping(before: Document, now: Document, simple: set<string>, todo: set<string>) {
    && now == before.(schemas := now.schemas)
    && now.schemas.Keys <= before.schemas.Keys
    && (forall n :: n in now.schemas ==> now.schemas[n] == before.schemas[n])
    && (forall n :: n in before.schemas && n !in now.schemas ==> n in simple - todo && !Mentioned(now, n))
    && (forall n :: n in now.schemas && n in simple - todo ==> Mentioned(before, n))
  }

  lemma PopOne(before: Document, now: Document, simple: set<string>, todo: set<string>, n: string)
    requires Popping(before, now, simple, todo) && simple <= before.schemas.Keys && n in simple && n in todo
    ensures Popping(before, if Mentioned(now, n) then now else now.(schemas := now.schemas - {n}), simple, todo - {n})
  {
    MentionsShrink(before, now);
    MentionsShrink(now, now.(schemas := now.schemas - {n}));
  }

  /** The document as the script holds it, its sections rewritten in place. */
  class Spec {
    var rest: Object
    var components: Object
    var paths: Object
    var schemas: Object

    constructor (doc: Document)
      ensures Doc() == doc
    {
      rest, components, paths, schemas := doc.rest, doc.components, doc.paths, doc.schemas;
    }

    function Doc(): Document
      reads this
    {
      Document(rest, components, paths, schemas)
    }

    method WalkAllPaths()
      modifies this`paths
      ensures paths == WalkPaths(schemas, old(paths))
    {
      ghost var before := paths;
      var todo := paths.Keys;
      while todo != {}
        invariant todo <= paths.Keys == before.Keys
        invariant forall p :: p in before ==> paths[p] == if p in todo then before[p] else WalkValue(schemas, before[p])
      {
        var p :| p in todo;
        todo := todo - {p};
        paths := paths[p := WalkValue(schemas, paths[p])];
      }
    }

    method WalkAllDefinitions()
      modifies this`schemas
      ensures schemas == WalkSchemas(old(schemas))
    {
      var enums := schemas;
      var todo := schemas.Keys;
      while todo != {}
        invariant todo <= schemas.Keys == enums.Keys
        invariant forall n :: n in enums ==> schemas[n] == if n in todo then enums[n] else WalkDefinition(enums, enums[n])
      {
        var n :| n in todo;
        todo := todo - {n};
        schemas := schemas[n := WalkDefinition(enums, schemas[n])];
      }
    }

    method InlineAllBodies()
      modifies this`paths
      ensures paths == InlineBodies(schemas, old(paths))
    {
      ghost var before := paths;
      var todo := paths.Keys;
      while todo != {}
        invariant todo <= paths.Keys == before.Keys
        invariant forall p :: p in before ==> paths[p] == if p in todo then before[p] else InlinePathItem(schemas, before[p])
      {
        var p :| p in todo;
        todo := todo - {p};
        paths := paths[p := InlinePathItem(schemas, paths[p])];
      }
    }

    /** Each simple enum in turn: kept if the document as it stands mentions it, popped if not. */
    method PopUnmentioned(simple: set<string>)
      requires simple <= schemas.Keys
      modifies this`schemas
      ensures Popping(old(Doc()), Doc(), simple, {})
    {
      ghost var before := Doc();
      var todo := simple;
      while todo != {}
        invariant todo <= simple
        invariant Popping(before, Doc(), simple, todo)
      {
        var n :| n in todo;
        PopOne(before, Doc(), simple, todo, n);
        todo := todo - {n};
        if !Mentioned(Doc(), n) {
          schemas := schemas - {n};
        }
      }
    }

    /** `inline_enum_refs` */
    method InlineEnumRefs()
      modifies this
      ensures CompiledTo(old(Doc()), Doc())
    {
      var simple := set n | n in schemas && IsSimple(schemas[n]);
      WalkAllPaths();
      WalkAllDefinitions();
      InlineAllBodies();
      assert Doc() == Rewritten(old(Doc()));
      PopUnmentioned(simple);
    }
  }
}
