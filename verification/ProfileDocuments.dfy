/**
 One action document per broker profile: the main document cut down to the operations the profile's
 ceiling covers, then pruned of schemas nothing mentions any more.
 */
module ProfileDocuments {
  import opened Wrappers
  import opened CanonicalJson
  import opened ActionDocument
  import B = Broker
  import R = BrokerRuns

  const BROKER_URL := "http://broker:8097"

  // ---------------------------------------------------------------------------------------------
  // Which operations survive
  // ---------------------------------------------------------------------------------------------

  type Actions = map<string, string>

  /** Operation id to policy action, from the first `n` rows of the broker's own table. */
  function ActionsOf(n: nat): Actions
    requires n <= |B.OPERATIONS|
  {
    if n == 0 then map[] else ActionsOf(n - 1)[B.OPERATIONS[n - 1].id := B.OPERATIONS[n - 1].action]
  }

  function BrokerActions(): Actions {
    ActionsOf(|B.OPERATIONS|)
  }

  function ActionOf(actions: Actions, operation: Value): Option<string> {
    if operation.VObject? && "operationId" in operation.members && operation.members["operationId"].VText?
       && operation.members["operationId"].s in actions then
      Some(actions[operation.members["operationId"].s])
    else None
  }

  /** A path item also holds things that are not operations; those are never looked at. */
  predicate IsOperation(v: Value) {
    v.VObject? && "operationId" in v.members
  }

  predicate Placed(actions: Actions, v: Value) {
    IsOperation(v) ==> ActionOf(actions, v).Some?
  }

  predicate Keeps(actions: Actions, table: B.ScopeTable, ceiling: set<string>, v: Value) {
    IsOperation(v) ==>
      && ActionOf(actions, v).Some?
      && ActionOf(actions, v).value in table.actions
      && table.actions[ActionOf(actions, v).value] in ceiling
  }

  function ItemKept(actions: Actions, table: B.ScopeTable, ceiling: set<string>, item: Value): Value {
    if item.VObject? then
      VObject(map verb | verb in item.members && Keeps(actions, table, ceiling, item.members[verb]) :: item.members[verb])
    else item
  }

  function PathsKept(actions: Actions, table: B.ScopeTable, ceiling: set<string>, paths: Object): Object {
    map path | path in paths && ItemKept(actions, table, ceiling, paths[path]) != VObject(map[]) :: ItemKept(actions, table, ceiling, paths[path])
  }

  /** The paths with only those outside `todo` cut. */
  function KeptBut(actions: Actions, table: B.ScopeTable, ceiling: set<string>, paths: Object, todo: set<string>): Object {
    map path | path in paths && (path in todo || ItemKept(actions, table, ceiling, paths[path]) != VObject(map[])) ::
      if path in todo then paths[path] else ItemKept(actions, table, ceiling, paths[path])
  }

  lemma KeptButStep(actions: Actions, table: B.ScopeTable, ceiling: set<string>, paths: Object, todo: set<string>, path: string)
    requires path in todo && path in paths
    ensures var now, kept := KeptBut(actions, table, ceiling, paths, todo), ItemKept(actions, table, ceiling, paths[path]);
      && path in now && now[path] == paths[path]
      && KeptBut(actions, table, ceiling, paths, todo - {path}) == (if kept == VObject(map[]) then now - {path} else now[path := kept])
  {
  }

  lemma KeptButEnds(actions: Actions, table: B.ScopeTable, ceiling: set<string>, paths: Object)
    ensures KeptBut(actions, table, ceiling, paths, paths.Keys) == paths
    ensures KeptBut(actions, table, ceiling, paths, {}) == PathsKept(actions, table, ceiling, paths)
  {
  }

  predicate AllPlaced(actions: Actions, paths: Object) {
    forall path | path in paths :: ItemPlaced(actions, paths[path])
  }

  predicate ItemPlaced(actions: Actions, item: Value) {
    item.VObject? ==> forall verb | verb in item.members :: Placed(actions, item.members[verb])
  }

  /** The document's own fields: the broker's address for this profile, and the profile in the title. */
  function Addressed(rest: Object, name: string): Object {
    var server := VObject(map[
      "url" := VText(BROKER_URL + "/" + name),
      "description" := VText("The delegation broker, as the " + name + " profile. Every call is made with a token naming the user and "
                             + name + ", narrowed to the call.")]);
    var info := if "info" in rest && rest["info"].VObject? then rest["info"].members else map[];
    var title := if "title" in info && info["title"].VText? then info["title"].s else "SupportPilot";
    rest["servers" := VArray([server])]["info" := VObject(info["title" := VText(title + " — " + name)])]
  }

  /** The one server is the broker's own path for the profile; the title names it; no other field of the root changes. */
  lemma AddressedToTheProfile(rest: Object, name: string, title: string)
    requires "info" in rest && rest["info"].VObject? && "title" in rest["info"].members
    requires rest["info"].members["title"] == VText(title)
    ensures var out := Addressed(rest, name);
      && out.Keys == rest.Keys + {"servers"}
      && (forall k :: k in rest && k !in {"servers", "info"} ==> out[k] == rest[k])
      && out["servers"].VArray? && |out["servers"].items| == 1 && out["servers"].items[0].VObject?
      && "url" in out["servers"].items[0].members
      && out["servers"].items[0].members["url"] == VText("http://broker:8097/" + name)
      && out["info"] == VObject(rest["info"].members["title" := VText(title + " — " + name)])
  {
  }

  // ---------------------------------------------------------------------------------------------
  // Which schemas survive
  // ---------------------------------------------------------------------------------------------

  function Restrict(schemas: Object, names: set<string>): Object {
    map n | n in schemas && n in names :: schemas[n]
  }

  /** The search leaves out every component section but the schemas. */
  predicate Supported(doc: Document, schemas: Object, name: string) {
    Mentions(VObject(doc.rest), name) || Mentions(VObject(doc.paths), name) || Mentions(VObject(schemas), name)
  }

  /** Each of the names is mentioned by the document's root or by one of them. */
  ghost predicate SelfSupporting(doc: Document, names: set<string>) {
    names <= doc.schemas.Keys && forall n :: n in names ==> Supported(doc, Restrict(doc.schemas, names), n)
  }

  ghost predicate Greatest(doc: Document, names: set<string>) {
    SelfSupporting(doc, names) && forall other :: SelfSupporting(doc, other) ==> other <= names
  }

  lemma SupportGrows(doc: Document, small: Object, large: Object, name: string)
    requires small.Keys <= large.Keys && forall k :: k in small ==> small[k] == large[k]
    requires Supported(doc, small, name)
    ensures Supported(doc, large, name)
  {
    TextsShrink(small, large);
  }

  // ---------------------------------------------------------------------------------------------
  // The profile's copy of the document, edited in place
  // ---------------------------------------------------------------------------------------------

  class ProfileDocument {
    var rest: Object
    var components: Object
    var paths: Object
    var schemas: Object

    constructor (doc: Document)
      ensures Doc() == doc
    {
      rest, components, paths, schemas := doc.rest, doc.components, doc.paths, doc.schemas;
    }

    function Doc(): Document
      reads this
    {
      Document(rest, components, paths, schemas)
    }

    /** One path item, operation by operation; false when an operation is in no row of the broker's table. */
    method CutItem(actions: Actions, table: B.ScopeTable, ceiling: set<string>, item: Object) returns (placed: bool, kept: Object)
      ensures placed <==> ItemPlaced(actions, VObject(item))
      ensures placed ==> VObject(kept) == ItemKept(actions, table, ceiling, VObject(item))
    {
      kept := item;
      var todo := item.Keys;
      while todo != {}
        invariant todo <= item.Keys
        invariant forall verb | verb in item.Keys - todo :: Placed(actions, item[verb])
        invariant forall verb | verb in kept :: verb in item && kept[verb] == item[verb]
        invariant forall verb | verb in item :: verb in kept <==> verb in todo || Keeps(actions, table, ceiling, item[verb])
      {
        var verb :| verb in todo;
        if !Placed(actions, item[verb]) {
          return false, kept;
        }
        todo := todo - {verb};
        if !Keeps(actions, table, ceiling, item[verb]) {
          kept := kept - {verb};
        }
      }
      placed := true;
    }

    method CutPaths(actions: Actions, table: B.ScopeTable, ceiling: set<string>) returns (placed: bool)
      modifies this`paths
      ensures placed <==> AllPlaced(actions, old(paths))
      ensures placed ==> paths == PathsKept(actions, table, ceiling, old(paths))
    {
      ghost var before := paths;
      var todo := paths.Keys;
      KeptButEnds(actions, table, ceiling, before);
      while todo != {}
        invariant todo <= before.Keys
        invariant forall p | p in before.Keys - todo :: ItemPlaced(actions, before[p])
        invariant paths == KeptBut(actions, table, ceiling, before, todo)
      {
        var p :| p in todo;
        KeptButStep(actions, table, ceiling, before, todo, p);
        todo := todo - {p};
        if paths[p].VObject? {
          var itemPlaced, kept := CutItem(actions, table, ceiling, paths[p].members);
          if !itemPlaced {
            return false;
          }
          if kept == map[] {
            paths := paths - {p};
          } else {
            paths := paths[p := VObject(kept)];
          }
        }
      }
      placed := true;
    }

    /** `_prune_unreferenced_schemas`: drop everything unmentioned, and look again. */
    method Prune()
      modifies this`schemas
      ensures schemas == Restrict(old(schemas), schemas.Keys) && schemas.Keys <= old(schemas).Keys
      ensures Greatest(old(Doc()), schemas.Keys)
    {
      ghost var doc := Doc();
      while true
        invariant schemas.Keys <= doc.schemas.Keys && schemas == Restrict(doc.schemas, schemas.Keys)
        invariant forall other :: SelfSupporting(doc, other) ==> other <= schemas.Keys
        decreases |schemas|
      {
        var unused := set n | n in schemas && !Supported(Doc(), schemas, n);
        if unused == {} {
          assert SelfSupporting(doc, schemas.Keys) by {
            forall n | n in schemas ensures Supported(doc, Restrict(doc.schemas, schemas.Keys), n) {
              assert n !in unused;
            }
          }
          return;
        }
        UnusedIsUnsupported(doc, schemas, unused);
        var n :| n in unused;
        assert n in schemas && n !in schemas - unused;
        assert (schemas - unused).Keys < schemas.Keys;
        SmallerMap(schemas - unused, schemas);
        schemas := schemas - unused;
      }
    }
  }

  lemma SmallerMap(small: Object, large: Object)
    requires small.Keys < large.Keys
    ensures |small| < |large|
  {
    SmallerSet(small.Keys, large.Keys);
    assert |small| == |small.Keys| && |large| == |large.Keys|;
  }

  lemma SmallerSet(small: set<string>, large: set<string>)
    requires small < large
    ensures |small| < |large|
  {
    assert large == small + (large - small);
  }

  /** No self-supporting set holds a name that nothing in a set around it mentions. */
  lemma UnusedIsUnsupported(doc: Document, schemas: Object, unused: set<string>)
    requires schemas.Keys <= doc.schemas.Keys && schemas == Restrict(doc.schemas, schemas.Keys)
    requires forall n :: n in unused ==> n in schemas && !Supported(doc, schemas, n)
    requires forall other :: SelfSupporting(doc, other) ==> other <= schemas.Keys
    ensures forall other :: SelfSupporting(doc, other) ==> other <= schemas.Keys - unused
  {
    forall other | SelfSupporting(doc, other) ensures other <= schemas.Keys - unused {
      assert other <= schemas.Keys;
      forall n | n in other ensures n !in unused {
        SupportGrows(doc, Restrict(doc.schemas, other), schemas, n);
      }
    }
  }

  // ---------------------------------------------------------------------------------------------
  // Pruning
  // ---------------------------------------------------------------------------------------------

  /** What pruning leaves of a document. */
  ghost predicate PrunedTo(doc: Document, out: Document) {
    out == doc.(schemas := Restrict(doc.schemas, out.schemas.Keys)) && Greatest(doc, out.schemas.Keys)
  }

  /** No reference to a schema that was there dangles after pruning. */
  lemma PruneLeavesNoDangling(doc: Document, out: Document, name: string)
    requires PrunedTo(doc, out) && name in doc.schemas && Supported(out, out.schemas, name)
    ensures name in out.schemas
  {
    var names := out.schemas.Keys + {name};
    forall n | n in names ensures Supported(doc, Restrict(doc.schemas, names), n) {
      assert n in out.schemas ==> Supported(doc, Restrict(doc.schemas, out.schemas.Keys), n);
      SupportGrows(doc, out.schemas, Restrict(doc.schemas, names), n);
    }
    assert SelfSupporting(doc, names);
  }

  predicate RootMentions(doc: Document, name: string) {
    Mentions(VObject(doc.rest), name) || Mentions(VObject(doc.paths), name)
  }

  /** The schema, or its own key, mentions the name. */
  predicate SchemaMentions(doc: Document, schema: string, name: string) {
    schema in doc.schemas && (Mentions(doc.schemas[schema], name) || schema == PREFIX + name)
  }

  /** Each of the names but the first is mentioned by the one before it. */
  predicate Chain(doc: Document, names: seq<string>) {
    && |names| > 0
    && (forall i :: 0 <= i < |names| ==> names[i] in doc.schemas)
    && (forall i :: 0 < i < |names| ==> SchemaMentions(doc, names[i - 1], names[i]))
  }

  /** The chain starts at the document's root, or in a cycle of mentions. */
  predicate Anchored(doc: Document, names: seq<string>)
    requires |names| > 0
  {
    RootMentions(doc, names[0]) || exists k :: 0 < k < |names| && names[k] == names[0]
  }

  lemma SupportedBy(doc: Document, kept: set<string>, schema: string, name: string)
    requires SchemaMentions(doc, schema, name) && schema in kept
    ensures Supported(doc, Restrict(doc.schemas, kept), name)
  {
    var schemas := Restrict(doc.schemas, kept);
    TextsOfMembers(schemas);
    assert schema in schemas && Texts(schemas[schema]) <= Texts(VObject(schemas));
    assert schemas.Keys <= Texts(VObject(schemas));
  }

  lemma SupporterOf(doc: Document, kept: set<string>, name: string) returns (schema: string)
    requires Supported(doc, Restrict(doc.schemas, kept), name) && !RootMentions(doc, name)
    ensures schema in kept && SchemaMentions(doc, schema, name)
  {
    var schemas := Restrict(doc.schemas, kept);
    if PREFIX + name in schemas {
      schema := PREFIX + name;
    } else {
      schema :| schema in schemas && PREFIX + name in Texts(schemas[schema]);
    }
  }

  /** What is on an anchored chain supports itself, so pruning keeps all of it. */
  lemma AnchoredSurvives(doc: Document, out: Document, names: seq<string>)
    requires PrunedTo(doc, out) && Chain(doc, names) && Anchored(doc, names)
    ensures forall i :: 0 <= i < |names| ==> names[i] in out.schemas
  {
    var chained := set i | 0 <= i < |names| :: names[i];
    forall n | n in chained ensures Supported(doc, Restrict(doc.schemas, chained), n) {
      var i :| 0 <= i < |names| && names[i] == n;
      if i > 0 {
        SupportedBy(doc, chained, names[i - 1], n);
      } else if !RootMentions(doc, n) {
        var k :| 0 < k < |names| && names[k] == names[0];
        assert SchemaMentions(doc, names[k - 1], names[k]);
        SupportedBy(doc, chained, names[k - 1], n);
      }
    }
    assert SelfSupporting(doc, chained);
  }

  /** Walking back from a kept schema ends at the root or goes on as long as one likes. */
  lemma {:induction false} WalkBack(doc: Document, kept: set<string>, name: string, length: nat) returns (names: seq<string>)
    requires SelfSupporting(doc, kept) && name in kept && length > 0
    ensures Chain(doc, names) && names[|names| - 1] == name
    ensures forall i :: 0 <= i < |names| ==> names[i] in kept
    ensures RootMentions(doc, names[0]) || |names| == length
  {
    if length == 1 {
      names := [name];
    } else {
      names := WalkBack(doc, kept, name, length - 1);
      if !RootMentions(doc, names[0]) {
        var schema := SupporterOf(doc, kept, names[0]);
        names := [schema] + names;
      }
    }
  }

  lemma {:induction false} SomeNameTwice(names: seq<string>, kept: set<string>) returns (i: nat, j: nat)
    requires forall k :: 0 <= k < |names| ==> names[k] in kept
    requires |names| > |kept|
    ensures i < j < |names| && names[i] == names[j]
  {
    var n := |names| - 1;
    if k :| 0 <= k < n && names[k] == names[n] {
      i, j := k, n;
    } else {
      i, j := SomeNameTwice(names[..n], kept - {names[n]});
    }
  }

  lemma CycleAnchors(doc: Document, names: seq<string>, i: nat, j: nat)
    requires Chain(doc, names) && i < j < |names| && names[i] == names[j]
    ensures Chain(doc, names[i..]) && Anchored(doc, names[i..])
  {
    var cycle := names[i..];
    assert cycle[j - i] == cycle[0];
    forall k | 0 < k < |cycle| ensures SchemaMentions(doc, cycle[k - 1], cycle[k]) {
      assert SchemaMentions(doc, names[i + k - 1], names[i + k]);
    }
  }

  lemma SurvivorIsAnchored(doc: Document, out: Document, name: string) returns (names: seq<string>)
    requires PrunedTo(doc, out) && name in out.schemas
    ensures Chain(doc, names) && Anchored(doc, names) && names[|names| - 1] == name
  {
    names := WalkBack(doc, out.schemas.Keys, name, |out.schemas.Keys| + 1);
    if !RootMentions(doc, names[0]) {
      var i, j := SomeNameTwice(names, out.schemas.Keys);
      CycleAnchors(doc, names, i, j);
      names := names[i..];
    }
  }

  /**
   A schema survives pruning exactly when a chain of mentions leads to it from the document's root or
   from a cycle of mentions: what only a cycle holds up is kept though nothing uses it.
   */
  lemma SurvivesPruningExactly(doc: Document, out: Document, name: string)
    requires PrunedTo(doc, out)
    ensures name in out.schemas
            <==> exists names :: Chain(doc, names) && Anchored(doc, names) && names[|names| - 1] == name
  {
    if name in out.schemas {
      var names := SurvivorIsAnchored(doc, out, name);
    } else {
      forall names | Chain(doc, names) && Anchored(doc, names) ensures names[|names| - 1] != name {
        AnchoredSurvives(doc, out, names);
      }
    }
  }

  lemma PrunedIsPopped(doc: Document, out: Document)
    requires PrunedTo(doc, out)
    ensures Popped(doc.schemas, out.schemas) && Quiet(doc.schemas, out.schemas, VObject(out.paths))
  {
    forall n | n in doc.schemas && n !in out.schemas ensures !Supported(out, out.schemas, n) {
      if Supported(out, out.schemas, n) {
        PruneLeavesNoDangling(doc, out, n);
      }
    }
    TextsOfMembers(out.schemas);
    forall n | n in out.schemas ensures Quiet(doc.schemas, out.schemas, out.schemas[n]) {
    }
  }

  /** What is left means what it meant: every path of every operation and schema shows the same. */
  lemma PruneKeepsMeaning(doc: Document, out: Document, path: seq<Step>)
    requires PrunedTo(doc, out)
    ensures At(doc.schemas, VObject(doc.paths), path) == At(out.schemas, VObject(out.paths), path)
    ensures forall n :: n in out.schemas ==> At(doc.schemas, doc.schemas[n], path) == At(out.schemas, out.schemas[n], path)
  {
    PrunedIsPopped(doc, out);
    PopShowsTheSame(doc.schemas, out.schemas, VObject(out.paths), path);
    forall n | n in out.schemas { PopShowsTheSame(doc.schemas, out.schemas, out.schemas[n], path); }
  }

  // ---------------------------------------------------------------------------------------------
  // One profile's document
  // ---------------------------------------------------------------------------------------------

  /** `profile_documents`, for one profile. */
  method ProjectDocument(spec: Document, actions: Actions, table: B.ScopeTable, name: string, ceiling: set<string>)
    returns (r: Result<Document, string>)
    ensures r.Ok? <==> AllPlaced(actions, spec.paths)
    ensures r.Ok? ==> PrunedTo(spec.(paths := PathsKept(actions, table, ceiling, spec.paths), rest := Addressed(spec.rest, name)), r.value)
  {
    var document := new ProfileDocument(spec);
    var placed := document.CutPaths(actions, table, ceiling);
    if !placed {
      return Err("an operation is not in the broker's table");
    }
    document.rest := Addressed(document.rest, name);
    document.Prune();
    r := Ok(document.Doc());
  }

  function Lower(verb: string): string {
    if verb == "GET" then "get" else "post"
  }

  /** The rows are of two methods, and a document writes them in small letters. */
  lemma LowerExactly(i: nat)
    requires i < |B.OPERATIONS|
    ensures var o := B.OPERATIONS[i]; (o.verb == "GET" && Lower(o.verb) == "get") || (o.verb == "POST" && Lower(o.verb) == "post")
  {
  }

  /** The main document publishes a row of the broker's table: what the broker's own test demands of it. */
  predicate Documents(paths: Object, o: B.Operation) {
    && o.template in paths
    && paths[o.template].VObject?
    && Lower(o.verb) in paths[o.template].members
    && IsOperation(paths[o.template].members[Lower(o.verb)])
    && paths[o.template].members[Lower(o.verb)].members["operationId"] == VText(o.id)
  }

  lemma IdsAreDistinct(i: nat, j: nat)
    requires i < j < |B.OPERATIONS|
    ensures B.OPERATIONS[i].id != B.OPERATIONS[j].id
  {
    assert B.OPERATIONS[0].id[4] == 'o' && B.OPERATIONS[2].id[4] == 'c' && B.OPERATIONS[3].id[4] == 't';
    assert |B.OPERATIONS[0].id| == 9 && |B.OPERATIONS[1].id| == 16 && |B.OPERATIONS[2].id| == 12 && |B.OPERATIONS[3].id| == 10;
    assert |B.OPERATIONS[4].id| == 17 && |B.OPERATIONS[5].id| == 14 && |B.OPERATIONS[6].id| == 17;
    assert B.OPERATIONS[4].id[0] == 'a' && B.OPERATIONS[6].id[0] == 'g';
  }

  lemma {:induction false} ActionOfRow(i: nat, n: nat)
    requires i < n <= |B.OPERATIONS|
    ensures B.OPERATIONS[i].id in ActionsOf(n) && ActionsOf(n)[B.OPERATIONS[i].id] == B.OPERATIONS[i].action
  {
    if i < n - 1 {
      ActionOfRow(i, n - 1);
      IdsAreDistinct(i, n - 1);
    }
  }

  predicate Survives(out: Object, o: B.Operation) {
    o.template in out && out[o.template].VObject? && Lower(o.verb) in out[o.template].members
  }

  /** An operation survives exactly when the profile's ceiling holds the scope it needs. */
  lemma SurvivesExactly(table: B.ScopeTable, ceiling: set<string>, paths: Object, i: nat)
    requires i < |B.OPERATIONS| && Documents(paths, B.OPERATIONS[i])
    ensures Survives(PathsKept(BrokerActions(), table, ceiling, paths), B.OPERATIONS[i])
            <==> B.OPERATIONS[i].action in table.actions && table.actions[B.OPERATIONS[i].action] in ceiling
  {
    var o := B.OPERATIONS[i];
    ActionOfRow(i, |B.OPERATIONS|);
    var item := paths[o.template];
    var operation := item.members[Lower(o.verb)];
    assert ActionOf(BrokerActions(), operation) == Some(o.action);
    var kept := ItemKept(BrokerActions(), table, ceiling, item);
    assert Lower(o.verb) in kept.members <==> Keeps(BrokerActions(), table, ceiling, operation);
    assert kept == VObject(map[]) ==> Lower(o.verb) !in kept.members;
  }

  /**
   The document a profile is given and what the gateway mints for it agree: an operation survives
   exactly when a matching call, by a user whose token has not expired and with passthrough off, is
   minted for.
   */
  lemma DocumentAgreesWithGateway(spec: Document, out: Document, profiles: map<string, B.Profile>, table: B.ScopeTable,
                                  call: B.Call, i: nat)
    requires i < |B.OPERATIONS| && Documents(spec.paths, B.OPERATIONS[i])
    requires call.profile in profiles && R.Sound(profiles[call.profile], table)
    requires PrunedTo(spec.(paths := PathsKept(BrokerActions(), table, profiles[call.profile].ceiling, spec.paths),
                            rest := Addressed(spec.rest, call.profile)), out)
    requires B.Row(i, call.verb, call.path)
    requires B.HasUser(call) && call.bearer.value.user.expires > call.now && !call.settings.passthrough
    ensures Survives(out.paths, B.OPERATIONS[i]) <==> B.MintedBy(B.Gateway(call, profiles, table)).Some?
  {
    SurvivesExactly(table, profiles[call.profile].ceiling, spec.paths, i);
    B.ResolveUnambiguous(i, i, call.verb, call.path);
    B.GatewayMintsExactly(call, profiles, table);
  }

  /**
   Every entry of a profile's document is an entry of the main one that shows the same at every path:
   the profile's copy takes operations away and changes none.
   */
  lemma EntriesMeanTheSame(spec: Document, out: Document, actions: Actions, table: B.ScopeTable, name: string, ceiling: set<string>,
                           path: string, verb: string, steps: seq<Step>)
    requires PrunedTo(spec.(paths := PathsKept(actions, table, ceiling, spec.paths), rest := Addressed(spec.rest, name)), out)
    requires path in out.paths && out.paths[path].VObject? && verb in out.paths[path].members
    ensures path in spec.paths && spec.paths[path].VObject? && verb in spec.paths[path].members
    ensures At(spec.schemas, spec.paths[path].members[verb], steps) == At(out.schemas, out.paths[path].members[verb], steps)
  {
    var cut := spec.(paths := PathsKept(actions, table, ceiling, spec.paths), rest := Addressed(spec.rest, name));
    NothingElseChanges(actions, table, ceiling, spec.paths, path, verb);
    var entry := out.paths[path].members[verb];
    PrunedIsPopped(cut, out);
    TextsOfMembers(out.paths);
    TextsOfMembers(out.paths[path].members);
    assert Texts(entry) <= Texts(out.paths[path]) <= Texts(VObject(out.paths));
    assert Quiet(cut.schemas, out.schemas, entry);
    PopShowsTheSame(cut.schemas, out.schemas, entry, steps);
  }

  /** What survives is what the ceiling covers and what is no operation at all, and it survives unchanged. */
  lemma NothingElseChanges(actions: Actions, table: B.ScopeTable, ceiling: set<string>, paths: Object, path: string, verb: string)
    ensures var kept := PathsKept(actions, table, ceiling, paths);
      path in kept && kept[path].VObject? && verb in kept[path].members
      <==> && path in paths && paths[path].VObject? && verb in paths[path].members
           && Keeps(actions, table, ceiling, paths[path].members[verb])
    ensures var kept := PathsKept(actions, table, ceiling, paths);
      path in kept && kept[path].VObject? && verb in kept[path].members ==> kept[path].members[verb] == paths[path].members[verb]
  {
    if path in paths && paths[path].VObject? && verb in paths[path].members
       && Keeps(actions, table, ceiling, paths[path].members[verb]) {
      var kept := ItemKept(actions, table, ceiling, paths[path]);
      assert verb in kept.members;
      assert kept != VObject(map[]);
    }
  }

  // --- cutting, in the terms of the broker's table and the profiles file ---

  predicate NamesRow(v: Value, i: int) {
    && 0 <= i < |B.OPERATIONS| && v.VObject? && "operationId" in v.members
    && v.members["operationId"] == VText(B.OPERATIONS[i].id)
  }

  lemma {:induction false} ActionsAreRows(id: string, n: nat)
    requires n <= |B.OPERATIONS|
    ensures id in ActionsOf(n) ==> exists i :: 0 <= i < n && B.OPERATIONS[i].id == id
    decreases n
  {
    if n > 0 {
      ActionsAreRows(id, n - 1);
    }
  }

  /** What has an operation id has its action from the row that it names, and none if it names none. */
  lemma ActionExactly(v: Value, i: nat)
    requires NamesRow(v, i)
    ensures ActionOf(BrokerActions(), v) == Some(B.OPERATIONS[i].action)
  {
    ActionOfRow(i, |B.OPERATIONS|);
  }

  /** The script stops at an operation exactly if its id is in no row. */
  lemma PlacedExactly(v: Value)
    ensures Placed(BrokerActions(), v) <==> (v.VObject? && "operationId" in v.members ==> exists i :: NamesRow(v, i))
  {
    if i :| NamesRow(v, i) {
      ActionExactly(v, i);
    }
    if ActionOf(BrokerActions(), v).Some? {
      ActionsAreRows(v.members["operationId"].s, |B.OPERATIONS|);
      var i :| 0 <= i < |B.OPERATIONS| && B.OPERATIONS[i].id == v.members["operationId"].s;
      assert NamesRow(v, i);
    }
  }

  /** The profile may do what the row does. */
  predicate Granted(table: B.ScopeTable, ceiling: set<string>, i: int) {
    0 <= i < |B.OPERATIONS| && B.OPERATIONS[i].action in table.actions && table.actions[B.OPERATIONS[i].action] in ceiling
  }

  /** An entry of a path stays exactly if it is no operation, or the operation of a row the profile's ceiling covers. */
  lemma EntryStaysExactly(table: B.ScopeTable, ceiling: set<string>, paths: Object, path: string, verb: string)
    requires path in paths && paths[path].VObject? && verb in paths[path].members
    ensures var kept, entry := PathsKept(BrokerActions(), table, ceiling, paths), paths[path].members[verb];
      path in kept && kept[path].VObject? && verb in kept[path].members
      <==> !(entry.VObject? && "operationId" in entry.members) || exists i :: NamesRow(entry, i) && Granted(table, ceiling, i)
  {
    var entry := paths[path].members[verb];
    NothingElseChanges(BrokerActions(), table, ceiling, paths, path, verb);
    PlacedExactly(entry);
    if i :| NamesRow(entry, i) {
      ActionExactly(entry, i);
      forall j | NamesRow(entry, j) ensures ActionOf(BrokerActions(), entry) == Some(B.OPERATIONS[j].action) {
        ActionExactly(entry, j);
      }
    }
  }

  /** A path goes exactly if it has no entry left. */
  lemma PathStaysExactly(actions: Actions, table: B.ScopeTable, ceiling: set<string>, paths: Object, path: string)
    requires path in paths && paths[path].VObject?
    ensures var kept := PathsKept(actions, table, ceiling, paths);
      path in kept <==> exists verb :: verb in paths[path].members && Keeps(actions, table, ceiling, paths[path].members[verb])
  {
    var item := ItemKept(actions, table, ceiling, paths[path]);
    if verb :| verb in paths[path].members && Keeps(actions, table, ceiling, paths[path].members[verb]) {
      assert verb in item.members;
    } else {
      assert item.members == map[];
    }
  }
}
