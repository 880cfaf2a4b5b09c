/** Object trees with string keys, JSON pointers (RFC 6901) and patches (RFC 6902, section 4). */
module Json {
  import opened Wrappers

  /** `Literal` is the text of null, true, false or a number. */
  datatype Json = Obj(fields: map<string, Json>) | Arr(items: seq<Json>) | Str(text: string) | Literal(text: string)

  type Path = seq<string>

  /** Values Python's `or` replaces. */
  predicate Falsy(j: Json) {
    match j
    case Obj(fields) => fields == map[]
    case Arr(items) => items == []
    case Str(text) => text == ""
    case Literal(text) => text == "null" || text == "false" || text == "0" || text == "0.0" || text == "-0.0"
  }

  // ---- pointers ----

  /** Python's str.replace for a two-character pattern starting with '~'. */
  function ReplaceAll(s: string, second: char, put: char): string {
    if |s| >= 2 && s[0] == '~' && s[1] == second then [put] + ReplaceAll(s[2..], second, put)
    else if s != [] then [s[0]] + ReplaceAll(s[1..], second, put)
    else []
  }

  /** Reference token with every '~' starting an escape. */
  predicate ValidToken(s: string) {
    || s == []
    || (s[0] == '~' && |s| >= 2 && (s[1] == '0' || s[1] == '1') && ValidToken(s[2..]))
    || (s[0] != '~' && s[0] != '/' && ValidToken(s[1..]))
  }

  /** Section 4 of RFC 6901 in a single pass. */
  function Decode(s: string): string
    requires ValidToken(s)
  {
    if s == [] then []
    else if s[0] == '~' then [if s[1] == '0' then '~' else '/'] + Decode(s[2..])
    else [s[0]] + Decode(s[1..])
  }

  function TwoStep(s: string): string {
    ReplaceAll(ReplaceAll(s, '1', '/'), '0', '~')
  }

  /** Replacing "~1" first and "~0" second decodes valid tokens exactly. */
  lemma {:induction false} TwoStepDecodes(s: string)
    requires ValidToken(s)
    ensures TwoStep(s) == Decode(s)
  {
    if s == [] {
    } else if s[0] == '~' {
      TwoStepDecodes(s[2..]);
      if s[1] == '0' {
        assert s[1..][1..] == s[2..];
        var rest := ReplaceAll(s[2..], '1', '/');
        assert ReplaceAll(s[1..], '1', '/') == ['0'] + rest;
        assert ReplaceAll(s, '1', '/') == ['~'] + (['0'] + rest);
        assert (['~'] + (['0'] + rest))[2..] == rest;
      } else {
        var rest := ReplaceAll(s[2..], '1', '/');
        assert ReplaceAll(s, '1', '/') == ['/'] + rest;
        assert (['/'] + rest)[1..] == rest;
      }
    } else {
      TwoStepDecodes(s[1..]);
      var rest := ReplaceAll(s[1..], '1', '/');
      assert ReplaceAll(s, '1', '/') == [s[0]] + rest;
      assert ([s[0]] + rest)[1..] == rest;
    }
  }

  /** str.split("/"). */
  function Split(s: string): (r: seq<string>)
    ensures r != []
  {
    if s == [] then [[]]
    else
      var rest := Split(s[1..]);
      if s[0] == '/' then [[]] + rest else [[s[0]] + rest[0]] + rest[1..]
  }

  /** `_json_pointer_segments`; None when the text is refused. */
  function Segments(pointer: string): Option<Path> {
    if pointer == [] then Some([])
    else if pointer[0] != '/' then None
    else Some(Each(Split(pointer[1..])))
  }

  function Each(tokens: seq<string>): Path {
    seq(|tokens|, i requires 0 <= i < |tokens| => TwoStep(tokens[i]))
  }

  predicate AllValid(tokens: seq<string>) {
    forall i :: 0 <= i < |tokens| ==> ValidToken(tokens[i])
  }

  function DecodeAll(tokens: seq<string>): Path
    requires AllValid(tokens)
  {
    seq(|tokens|, i requires 0 <= i < |tokens| => Decode(tokens[i]))
  }

  /** What RFC 6901 makes of a pointer; None when it is not one. */
  function Resolve(pointer: string): Option<Path> {
    if pointer == [] then Some([])
    else if pointer[0] != '/' then None
    else
      var tokens := Split(pointer[1..]);
      if AllValid(tokens) then Some(DecodeAll(tokens)) else None
  }

  /** On every pointer RFC 6901 accepts the checker sees the same path. */
  lemma SegmentsResolve(pointer: string)
    ensures Resolve(pointer).Some? ==> Segments(pointer) == Resolve(pointer)
  {
    if pointer != [] && pointer[0] == '/' {
      var tokens := Split(pointer[1..]);
      if AllValid(tokens) {
        forall i | 0 <= i < |tokens| ensures TwoStep(tokens[i]) == Decode(tokens[i]) { TwoStepDecodes(tokens[i]); }
        assert Each(tokens) == Resolve(pointer).value;
      }
    }
  }

  function Encode(key: string): string {
    if key == [] then []
    else (if key[0] == '~' then ['~', '0'] else if key[0] == '/' then ['~', '1'] else [key[0]]) + Encode(key[1..])
  }

  function Pointer(path: Path): string {
    if path == [] then [] else ['/'] + Encode(path[0]) + Pointer(path[1..])
  }

  lemma {:induction false} EncodeDecodes(key: string)
    ensures ValidToken(Encode(key)) && Decode(Encode(key)) == key && '/' !in Encode(key)
  {
    if key != [] {
      EncodeDecodes(key[1..]);
      var e := Encode(key);
      if key[0] == '~' || key[0] == '/' {
        assert e[2..] == Encode(key[1..]);
      } else {
        assert e[1..] == Encode(key[1..]);
      }
    }
  }

  lemma {:induction false} SplitFirst(token: string, rest: string)
    requires '/' !in token && (rest == [] || rest[0] == '/')
    ensures Split(token + rest) == if rest == [] then [token] else [token] + Split(rest[1..])
  {
    if token == [] {
      assert token + rest == rest;
    } else {
      assert (token + rest)[1..] == token[1..] + rest;
      SplitFirst(token[1..], rest);
      assert [token[0]] + token[1..] == token;
    }
  }

  lemma DecodeAllCons(token: string, tokens: seq<string>)
    requires ValidToken(token) && AllValid(tokens)
    ensures AllValid([token] + tokens) && DecodeAll([token] + tokens) == [Decode(token)] + DecodeAll(tokens)
  {
  }

  lemma ResolveTokens(pointer: string, tokens: seq<string>)
    requires pointer != [] && pointer[0] == '/' && Split(pointer[1..]) == tokens && AllValid(tokens)
    ensures Resolve(pointer) == Some(DecodeAll(tokens))
  {
  }

  function Tokens(path: Path): seq<string> {
    if path == [] then [] else [Encode(path[0])] + Tokens(path[1..])
  }

  lemma {:induction false} PointerTokens(path: Path)
    ensures AllValid(Tokens(path)) && DecodeAll(Tokens(path)) == path
    ensures if path == [] then Pointer(path) == [] else Pointer(path) != [] && Pointer(path)[0] == '/' && Split(Pointer(path)[1..]) == Tokens(path)
  {
    hide ValidToken, Decode, Encode, Split, DecodeAll;
    if path == [] {
      NoTokens();
    } else {
      PointerTokens(path[1..]);
      EncodeDecodes(path[0]);
      SplitFirst(Encode(path[0]), Pointer(path[1..]));
      DecodeAllCons(Encode(path[0]), Tokens(path[1..]));
      assert Pointer(path)[1..] == Encode(path[0]) + Pointer(path[1..]);
      assert path == [path[0]] + path[1..];
    }
  }

  lemma NoTokens()
    ensures DecodeAll([]) == []
  {
  }

  /** Every path has a pointer, and resolving it gives the path back. */
  lemma PointerRoundTrip(path: Path)
    ensures Resolve(Pointer(path)) == Some(path)
  {
    hide AllValid, DecodeAll, Tokens, Split, Pointer;
    PointerTokens(path);
    if path != [] { ResolveTokens(Pointer(path), Tokens(path)); }
  }

  // ---- documents ----

  /** Decimal value of a digit string, continued from `sofar`. */
  function Number(s: string, sofar: nat): Option<nat> {
    if s == [] then Some(sofar)
    else if '0' <= s[0] <= '9' then Number(s[1..], 10 * sofar + (s[0] as int - '0' as int))
    else None
  }

  /** Array index token: digits without a leading zero. */
  function Index(token: string): Option<nat> {
    if token == [] || (token[0] == '0' && |token| > 1) then None else Number(token, 0)
  }

  function Lookup(j: Json, path: Path): Option<Json>
    decreases |path|
  {
    if path == [] then Some(j)
    else match j
      case Obj(fields) => if path[0] in fields then Lookup(fields[path[0]], path[1..]) else None
      case Arr(items) =>
        var i := Index(path[0]);
        if i.Some? && i.value < |items| then Lookup(items[i.value], path[1..]) else None
      case _ => None
  }

  /** Sets or inserts at a path; None when the parent does not take it. */
  function Add(j: Json, path: Path, value: Json): Option<Json>
    decreases |path|
  {
    if path == [] then Some(value)
    else match j
      case Obj(fields) =>
        if |path| == 1 then Some(Obj(fields[path[0] := value]))
        else if path[0] !in fields then None
        else
          var child := Add(fields[path[0]], path[1..], value);
          if child.Some? then Some(Obj(fields[path[0] := child.value])) else None
      case Arr(items) =>
        var i := if path[0] == "-" then Some(|items|) else Index(path[0]);
        if i.None? || i.value > |items| then None
        else if |path| == 1 then Some(Arr(items[..i.value] + [value] + items[i.value..]))
        else if i.value == |items| then None
        else
          var child := Add(items[i.value], path[1..], value);
          if child.Some? then Some(Arr(items[i.value := child.value])) else None
      case _ => None
  }

  function Remove(j: Json, path: Path): Option<Json>
    decreases |path|
  {
    if path == [] then None
    else match j
      case Obj(fields) =>
        if path[0] !in fields then None
        else if |path| == 1 then Some(Obj(fields - {path[0]}))
        else
          var child := Remove(fields[path[0]], path[1..]);
          if child.Some? then Some(Obj(fields[path[0] := child.value])) else None
      case Arr(items) =>
        var i := Index(path[0]);
        if i.None? || i.value >= |items| then None
        else if |path| == 1 then Some(Arr(items[..i.value] + items[i.value+1..]))
        else
          var child := Remove(items[i.value], path[1..]);
          if child.Some? then Some(Arr(items[i.value := child.value])) else None
      case _ => None
  }

  /** Replacing is removing and then adding at the same place; the root is simply replaced. */
  function Replace(j: Json, path: Path, value: Json): Option<Json> {
    if path == [] then Some(value)
    else
      var removed := Remove(j, path);
      if removed.Some? then Add(removed.value, path, value) else None
  }

  // ---- operations ----

  datatype Operation =
    | AddOp(path: string, value: Json)
    | RemoveOp(path: string)
    | ReplaceOp(path: string, value: Json)
    | MoveOp(from: string, path: string)
    | CopyOp(from: string, path: string)
    | TestOp(path: string, value: Json)

  function Perform(j: Json, op: Operation): Option<Json> {
    var path := Resolve(op.path);
    if path.None? then None
    else match op
      case AddOp(_, value) => Add(j, path.value, value)
      case RemoveOp(_) => Remove(j, path.value)
      case ReplaceOp(_, value) => Replace(j, path.value, value)
      case TestOp(_, value) => if Lookup(j, path.value) == Some(value) then Some(j) else None
      case MoveOp(f, _) =>
        var source := Resolve(f);
        if source.None? || Lookup(j, source.value).None? then None
        else if source.value == path.value then Some(j)
        else if source.value < path.value then None
        else
          var removed := Remove(j, source.value);
          if removed.Some? then Add(removed.value, path.value, Lookup(j, source.value).value) else None
      case CopyOp(f, _) =>
        var source := Resolve(f);
        if source.None? || Lookup(j, source.value).None? then None
        else Add(j, path.value, Lookup(j, source.value).value)
  }

  // ---- overlap ----

  /** `_paths_overlap`: equal up to the shorter length. */
  predicate Overlap(a: Path, b: Path) {
    var common := if |a| < |b| then |a| else |b|;
    a[..common] == b[..common]
  }

  /** Paths made of plain member names, as the owned ones are. */
  predicate Named(path: Path) {
    forall i :: 0 <= i < |path| ==> Index(path[i]).None? && path[i] != "-"
  }

  lemma OverlapTail(a: Path, b: Path)
    requires a != [] && b != [] && a[0] == b[0]
    ensures Overlap(a, b) == Overlap(a[1..], b[1..])
  {
    var common := if |a| < |b| then |a| else |b|;
    assert a[..common] == [a[0]] + a[1..][..common-1];
    assert b[..common] == [b[0]] + b[1..][..common-1];
  }

  /** Setting or inserting elsewhere leaves the whole subtree at a named path as it was. */
  lemma {:induction false} AddElsewhere(j: Json, path: Path, value: Json, t: Path)
    requires Named(t) && !Overlap(path, t) && Add(j, path, value).Some?
    ensures Lookup(Add(j, path, value).value, t) == Lookup(j, t)
    decreases |path|
  {
    assert path != [] && t != [];
    if j.Obj? && path[0] == t[0] {
      OverlapTail(path, t);
      AddElsewhere(j.fields[path[0]], path[1..], value, t[1..]);
    }
  }

  lemma {:induction false} RemoveElsewhere(j: Json, path: Path, t: Path)
    requires Named(t) && !Overlap(path, t) && Remove(j, path).Some?
    ensures Lookup(Remove(j, path).value, t) == Lookup(j, t)
    decreases |path|
  {
    assert path != [] && t != [];
    if j.Obj? && path[0] == t[0] {
      OverlapTail(path, t);
      RemoveElsewhere(j.fields[path[0]], path[1..], t[1..]);
    }
  }

  /** Neither pointer of the operation overlaps t. */
  predicate Apart(op: Operation, t: Path) {
    && (Resolve(op.path).Some? ==> !Overlap(Resolve(op.path).value, t))
    && (op.MoveOp? || op.CopyOp? ==> Resolve(op.from).Some? ==> !Overlap(Resolve(op.from).value, t))
  }

  lemma PerformElsewhere(j: Json, op: Operation, t: Path)
    requires Named(t) && Apart(op, t) && Perform(j, op).Some?
    ensures Lookup(Perform(j, op).value, t) == Lookup(j, t)
  {
    var path := Resolve(op.path).value;
    match op
    case AddOp(_, value) => AddElsewhere(j, path, value, t);
    case RemoveOp(_) => RemoveElsewhere(j, path, t);
    case ReplaceOp(_, value) =>
      if path != [] {
        RemoveElsewhere(j, path, t);
        AddElsewhere(Remove(j, path).value, path, value, t);
      }
    case MoveOp(f, _) =>
      var source := Resolve(f).value;
      if source != path {
        RemoveElsewhere(j, source, t);
        AddElsewhere(Remove(j, source).value, path, Lookup(j, source).value, t);
      }
    case CopyOp(f, _) => AddElsewhere(j, path, Lookup(j, Resolve(f).value).value, t);
    case TestOp(_, _) =>
  }

  /** Adding puts exactly the value at a named path. */
  lemma {:induction false} AddedThere(j: Json, t: Path, value: Json)
    requires Named(t) && Add(j, t, value).Some?
    ensures Lookup(Add(j, t, value).value, t) == Some(value)
    decreases |t|
  {
    if |t| > 1 {
      AddedThere(j.fields[t[0]], t[1..], value);
    } else if |t| == 1 {
      assert t[1..] == [];
    }
  }

  /** The place a new member would go is there: the root, or a member of a mapping. */
  predicate HasParent(j: Json, t: Path) {
    t == [] || (Lookup(j, t[..|t|-1]).Some? && Lookup(j, t[..|t|-1]).value.Obj?)
  }

  lemma {:induction false} AddsExactly(j: Json, t: Path, value: Json)
    requires Named(t)
    ensures Add(j, t, value).Some? <==> HasParent(j, t)
    decreases |t|
  {
    if |t| > 1 {
      assert t[..|t|-1][0] == t[0] && t[..|t|-1][1..] == t[1..][..|t|-2];
      if j.Obj? && t[0] in j.fields { AddsExactly(j.fields[t[0]], t[1..], value); }
    }
  }

  lemma {:induction false} RemovesExactly(j: Json, t: Path)
    requires Named(t)
    ensures Remove(j, t).Some? <==> t != [] && Lookup(j, t).Some?
    ensures Remove(j, t).Some? ==> Lookup(Remove(j, t).value, t).None? && HasParent(Remove(j, t).value, t)
    decreases |t|
  {
    if |t| > 1 && j.Obj? && t[0] in j.fields {
      RemovesExactly(j.fields[t[0]], t[1..]);
      assert t[..|t|-1][0] == t[0] && t[..|t|-1][1..] == t[1..][..|t|-2];
    }
  }

  /** RFC 6902, sections 4.1 to 4.6, for pointers that name members. */
  predicate Permits(j: Json, op: Operation)
    requires Resolve(op.path).Some? && (op.MoveOp? || op.CopyOp? ==> Resolve(op.from).Some?)
  {
    var t := Resolve(op.path).value;
    match op
    case AddOp(_, _) => HasParent(j, t)
    case RemoveOp(_) => t != [] && Lookup(j, t).Some?
    case ReplaceOp(_, _) => Lookup(j, t).Some?
    case TestOp(_, value) => Lookup(j, t) == Some(value)
    case CopyOp(f, _) => Lookup(j, Resolve(f).value).Some? && HasParent(j, t)
    case MoveOp(f, _) =>
      var s := Resolve(f).value;
      && Lookup(j, s).Some?
      && (s == t || (!(s < t) && Remove(j, s).Some? && HasParent(Remove(j, s).value, t)))
  }

  /** What is there afterwards. */
  predicate Effective(j: Json, op: Operation, after: Json)
    requires Resolve(op.path).Some?
  {
    var t := Resolve(op.path).value;
    match op
    case AddOp(_, value) => Lookup(after, t) == Some(value)
    case RemoveOp(_) => Lookup(after, t).None?
    case ReplaceOp(_, value) => Lookup(after, t) == Some(value)
    case TestOp(_, value) => after == j && Lookup(j, t) == Some(value)
    case CopyOp(f, _) => Resolve(f).Some? && Lookup(after, t) == Lookup(j, Resolve(f).value)
    case MoveOp(f, _) => Resolve(f).Some? && Lookup(after, t) == Lookup(j, Resolve(f).value)
  }

  /** Where both pointers name members, an operation succeeds exactly when it is permitted, ... */
  lemma PerformsExactly(j: Json, op: Operation)
    requires Resolve(op.path).Some? && Named(Resolve(op.path).value)
    requires op.MoveOp? || op.CopyOp? ==> Resolve(op.from).Some? && Named(Resolve(op.from).value)
    ensures Perform(j, op).Some? <==> Permits(j, op)
  {
    hide Resolve, Named, Add, Remove, HasParent;
    var t := Resolve(op.path).value;
    match op
    case AddOp(_, value) => AddsExactly(j, t, value);
    case RemoveOp(_) => RemovesExactly(j, t);
    case ReplaceOp(_, value) =>
      RemovesExactly(j, t);
      if Remove(j, t).Some? { AddsExactly(Remove(j, t).value, t, value); }
    case CopyOp(f, _) =>
      if Lookup(j, Resolve(f).value).Some? { AddsExactly(j, t, Lookup(j, Resolve(f).value).value); }
    case MoveOp(f, _) =>
      var s := Resolve(f).value;
      RemovesExactly(j, s);
      if Remove(j, s).Some? { AddsExactly(Remove(j, s).value, t, Lookup(j, s).value); }
    case TestOp(_, _) =>
  }

  /** ... and then has its effect. */
  lemma PerformedThere(j: Json, op: Operation)
    requires Resolve(op.path).Some? && Named(Resolve(op.path).value) && Perform(j, op).Some?
    ensures Effective(j, op, Perform(j, op).value)
  {
    hide Resolve, Named, Add, Remove;
    var t := Resolve(op.path).value;
    match op
    case AddOp(_, value) => AddedThere(j, t, value);
    case RemoveOp(_) => RemovesExactly(j, t);
    case ReplaceOp(_, value) =>
      if t != [] { AddedThere(Remove(j, t).value, t, value); }
    case CopyOp(f, _) => AddedThere(j, t, Lookup(j, Resolve(f).value).value);
    case MoveOp(f, _) =>
      var s := Resolve(f).value;
      if s != t { AddedThere(Remove(j, s).value, t, Lookup(j, s).value); }
    case TestOp(_, _) =>
  }

  // ---- strategic merge ----

  /** Deep merge of mappings. What happens below or beside them - lists, scalars, empty mappings - is
      left to `leaf`, which sees the old value, if any, and may even drop it. */
  function Merge(was: Option<Json>, patch: Json, leaf: (Option<Json>, Json) -> Option<Json>): Option<Json>
    decreases patch
  {
    if patch.Obj? && patch.fields != map[] then
      var base := if was.Some? && was.value.Obj? then was.value.fields else map[];
      Some(Obj(map k | k in base.Keys + patch.fields.Keys
                      && (k in patch.fields ==> Merge(Field(base, k), patch.fields[k], leaf).Some?)
                   :: if k in patch.fields then Merge(Field(base, k), patch.fields[k], leaf).value else base[k]))
    else leaf(was, patch)
  }

  function Field(fields: map<string, Json>, k: string): Option<Json> {
    if k in fields then Some(fields[k]) else None
  }

  /** `_strategic_patch_paths`: where a patch takes effect. */
  function LeafPaths(patch: Json): set<Path> {
    if patch.Obj? && patch.fields != map[]
    then set k, p | k in patch.fields && p in LeafPaths(patch.fields[k]) :: [k] + p
    else {[]}
  }

  lemma RootOverlaps(t: Path)
    ensures Overlap([], t)
  {
    assert t[..0] == [];
  }

  /** Merging elsewhere leaves the subtree at a named path as it was, whatever the leaf policy. */
  lemma {:induction false} MergeElsewhere(was: Option<Json>, patch: Json, leaf: (Option<Json>, Json) -> Option<Json>, t: Path)
    requires Named(t) && forall p :: p in LeafPaths(patch) ==> !Overlap(p, t)
    ensures LookupIn(Merge(was, patch, leaf), t) == LookupIn(was, t)
    decreases patch
  {
    if patch.Obj? && patch.fields != map[] {
      var base := if was.Some? && was.value.Obj? then was.value.fields else map[];
      PathsBelow(patch);
      assert t != [];
      if t[0] in patch.fields {
        forall p | p in LeafPaths(patch.fields[t[0]]) ensures !Overlap(p, t[1..]) {
          assert [t[0]] + p in LeafPaths(patch);
          OverlapTail([t[0]] + p, t);
          assert ([t[0]] + p)[1..] == p;
        }
        MergeElsewhere(Field(base, t[0]), patch.fields[t[0]], leaf, t[1..]);
      }
    } else {
      RootOverlaps(t);
      assert false;
    }
  }

  function LookupIn(j: Option<Json>, path: Path): Option<Json> {
    if j.Some? then Lookup(j.value, path) else None
  }

  /** Every patch takes effect somewhere. */
  lemma {:induction false} PathsBelow(patch: Json)
    ensures exists p :: p in LeafPaths(patch)
    decreases patch
  {
    if patch.Obj? && patch.fields != map[] {
      var k :| k in patch.fields;
      PathsBelow(patch.fields[k]);
      var p :| p in LeafPaths(patch.fields[k]);
      assert [k] + p in LeafPaths(patch);
    } else {
      assert [] in LeafPaths(patch);
    }
  }
}
