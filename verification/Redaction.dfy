/** The logger's redactor over arbitrary object graphs, shared and cyclic ones included. */
module Redaction {
  import opened Seqs

  type Ref = nat  // object identities
  datatype Scalar = Text(text: string) | Other(code: int)
  datatype Value = Plain(scalar: Scalar) | Object(ref: Ref)
  datatype Field<V> = Field(key: string, value: V)

  /** What an object is: a date, an array, or a record of enumerable fields. */
  datatype Node = Date(iso: string) | Array(items: seq<Value>) | Record(fields: seq<Field<Value>>)
  type Heap = Ref -> Node

  /** What comes out: a finite tree. */
  datatype Tree = Leaf(scalar: Scalar) | List(items: seq<Tree>) | Dict(fields: seq<Field<Tree>>)

  const MaxDepth := 12

  function Mark(text: string): Tree {
    Leaf(Text(text))
  }

  function Redacted(): Tree { Mark("[REDACTED]") }

  // ---- sensitive keys -------------------------------------------------------

  function Needles(): seq<string> {
    ["password", "passwd", "pwd", "secret", "clientsecret", "token", "authorization", "bearer", "apikey", "api_key",
     "jwt", "cookie", "credential", "private_key", "privatekey", "session", "sessionid", "sid", "signature", "salt",
     "otp", "mfa"]
  }

  predicate Includes(s: string, needle: string) {
    exists i :: 0 <= i <= |s| && needle <= s[i..]
  }

  /** `lower` is the platform's lower-casing. */
  predicate ShouldRedact(lower: string -> string, key: string) {
    exists needle :: needle in Needles() && Includes(lower(key), needle)
  }

  /** The words that give a secret away. */
  predicate SecretWord(word: string) {
    || word == "password" || word == "passwd" || word == "pwd" || word == "secret" || word == "clientsecret"
    || word == "token" || word == "authorization" || word == "bearer" || word == "apikey" || word == "api_key"
    || word == "jwt" || word == "cookie" || word == "credential" || word == "private_key" || word == "privatekey"
    || word == "session" || word == "sessionid" || word == "sid" || word == "signature" || word == "salt"
    || word == "otp" || word == "mfa"
  }

  /** One of them occurs in the lower-cased key. */
  ghost predicate NamesSecret(lowered: string) {
    exists before, word, after :: lowered == before + word + after && SecretWord(word)
  }

  lemma NeedlesAreSecretWords(word: string)
    ensures word in Needles() <==> SecretWord(word)
  {
  }

  lemma IncludedMeans(s: string, word: string) returns (before: string, after: string)
    requires Includes(s, word)
    ensures s == before + word + after
  {
    var i :| 0 <= i <= |s| && word <= s[i..];
    before, after := s[..i], s[i + |word|..];
    assert s[i..] == word + after && s == before + s[i..];
  }

  lemma IncludedIn(before: string, word: string, after: string)
    ensures Includes(before + word + after, word)
  {
    assert (before + word + after)[|before|..] == word + after;
  }

  /** The sensitive keys are those that name a secret. */
  lemma SensitiveIff(lower: string -> string, key: string)
    ensures ShouldRedact(lower, key) <==> NamesSecret(lower(key))
  {
    if ShouldRedact(lower, key) {
      var word :| word in Needles() && Includes(lower(key), word);
      var before, after := IncludedMeans(lower(key), word);
      NeedlesAreSecretWords(word);
    }
    if NamesSecret(lower(key)) {
      var before, word, after :| lower(key) == before + word + after && SecretWord(word);
      NeedlesAreSecretWords(word);
      IncludedIn(before, word, after);
    }
  }

  // ---- redact ---------------------------------------------------------------

  /** The tree for a value, and the objects seen by then. */
  function Redact(lower: string -> string, heap: Heap, v: Value, seen: set<Ref>, depth: nat): (Tree, set<Ref>)
    requires depth <= MaxDepth
    decreases MaxDepth - depth, 0
  {
    if v.Plain? then (Leaf(v.scalar), seen)
    else
      var node := heap(v.ref);
      if node.Date? then (Mark(node.iso), seen)
      else if depth == MaxDepth then (Mark("[Truncated]"), seen)
      else if v.ref in seen then (Mark("[Circular]"), seen)
      else if node.Array? then
        var (items, s) := RedactItems(lower, heap, node.items, seen + {v.ref}, depth + 1);
        (List(items), s)
      else
        var (fields, s) := RedactFields(lower, heap, node.fields, seen + {v.ref}, depth + 1);
        (Dict(fields), s)
  }

  function RedactItems(lower: string -> string, heap: Heap, vs: seq<Value>, seen: set<Ref>, depth: nat): (seq<Tree>, set<Ref>)
    requires depth <= MaxDepth
    decreases MaxDepth - depth, |vs|
  {
    if vs == [] then ([], seen)
    else
      var (ts, s) := RedactItems(lower, heap, vs[..|vs| - 1], seen, depth);
      var (t, s') := Redact(lower, heap, Last(vs), s, depth);
      (ts + [t], s')
  }

  function RedactField(lower: string -> string, heap: Heap, f: Field<Value>, seen: set<Ref>, depth: nat): (Field<Tree>, set<Ref>)
    requires depth <= MaxDepth
    decreases MaxDepth - depth, 1
  {
    if ShouldRedact(lower, f.key) then (Field(f.key, Redacted()), seen)
    else
      var (t, s) := Redact(lower, heap, f.value, seen, depth);
      (Field(f.key, t), s)
  }

  function RedactFields(lower: string -> string, heap: Heap, fs: seq<Field<Value>>, seen: set<Ref>, depth: nat)
    : (seq<Field<Tree>>, set<Ref>)
    requires depth <= MaxDepth
    decreases MaxDepth - depth, |fs| + 1
  {
    if fs == [] then ([], seen)
    else
      var (ts, s) := RedactFields(lower, heap, fs[..|fs| - 1], seen, depth);
      var (t, s') := RedactField(lower, heap, Last(fs), s, depth);
      (ts + [t], s')
  }

  /** What comes out for the `i`-th item: it is redacted after the ones before it. */
  function ItemAt(lower: string -> string, heap: Heap, vs: seq<Value>, seen: set<Ref>, depth: nat, i: nat): Tree
    requires depth <= MaxDepth && i < |vs|
  {
    Redact(lower, heap, vs[i], RedactItems(lower, heap, vs[..i], seen, depth).1, depth).0
  }

  /** And for the `i`-th field: the marker under a key that names a secret, else the redacted value. */
  ghost function FieldAt(lower: string -> string, heap: Heap, fs: seq<Field<Value>>, seen: set<Ref>, depth: nat, i: nat)
    : Field<Tree>
    requires depth <= MaxDepth && i < |fs|
  {
    Field(fs[i].key,
          if NamesSecret(lower(fs[i].key)) then Leaf(Text("[REDACTED]"))
          else Redact(lower, heap, fs[i].value, RedactFields(lower, heap, fs[..i], seen, depth).1, depth).0)
  }

  ghost predicate ItemsRedacted(ts: seq<Tree>, lower: string -> string, heap: Heap, vs: seq<Value>, seen: set<Ref>, depth: nat)
    requires depth <= MaxDepth
  {
    |ts| == |vs| && forall i :: 0 <= i < |vs| ==> ts[i] == ItemAt(lower, heap, vs, seen, depth, i)
  }

  ghost predicate FieldsRedacted(out: seq<Field<Tree>>, lower: string -> string, heap: Heap, fs: seq<Field<Value>>,
                                 seen: set<Ref>, depth: nat)
    requires depth <= MaxDepth
  {
    |out| == |fs| && forall i :: 0 <= i < |fs| ==> out[i] == FieldAt(lower, heap, fs, seen, depth, i)
  }

  lemma SameItemAt(lower: string -> string, heap: Heap, vs: seq<Value>, seen: set<Ref>, depth: nat, n: nat, i: nat)
    requires depth <= MaxDepth && i < n <= |vs|
    ensures ItemAt(lower, heap, vs[..n], seen, depth, i) == ItemAt(lower, heap, vs, seen, depth, i)
  {
    assert vs[..n][..i] == vs[..i];
  }

  lemma SameFieldAt(lower: string -> string, heap: Heap, fs: seq<Field<Value>>, seen: set<Ref>, depth: nat, n: nat, i: nat)
    requires depth <= MaxDepth && i < n <= |fs|
    ensures FieldAt(lower, heap, fs[..n], seen, depth, i) == FieldAt(lower, heap, fs, seen, depth, i)
  {
    assert fs[..n][..i] == fs[..i];
  }

  lemma LastItemAt(lower: string -> string, heap: Heap, vs: seq<Value>, seen: set<Ref>, depth: nat)
    requires depth <= MaxDepth && vs != []
    ensures var n := |vs| - 1;
      RedactItems(lower, heap, vs, seen, depth).0
      == RedactItems(lower, heap, vs[..n], seen, depth).0 + [ItemAt(lower, heap, vs, seen, depth, n)]
  {
  }

  lemma LastFieldAt(lower: string -> string, heap: Heap, fs: seq<Field<Value>>, seen: set<Ref>, depth: nat)
    requires depth <= MaxDepth && fs != []
    ensures var n := |fs| - 1;
      RedactFields(lower, heap, fs, seen, depth).0
      == RedactFields(lower, heap, fs[..n], seen, depth).0 + [FieldAt(lower, heap, fs, seen, depth, n)]
  {
    SensitiveIff(lower, Last(fs).key);
  }

  lemma {:induction false} EveryItemIsRedacted(lower: string -> string, heap: Heap, vs: seq<Value>, seen: set<Ref>, depth: nat)
    requires depth <= MaxDepth
    ensures ItemsRedacted(RedactItems(lower, heap, vs, seen, depth).0, lower, heap, vs, seen, depth)
  {
    if vs != [] {
      var n := |vs| - 1;
      EveryItemIsRedacted(lower, heap, vs[..n], seen, depth);
      LastItemAt(lower, heap, vs, seen, depth);
      forall i | 0 <= i < n ensures ItemAt(lower, heap, vs[..n], seen, depth, i) == ItemAt(lower, heap, vs, seen, depth, i) {
        SameItemAt(lower, heap, vs, seen, depth, n, i);
      }
    }
  }

  lemma {:induction false} EveryFieldIsRedacted(lower: string -> string, heap: Heap, fs: seq<Field<Value>>, seen: set<Ref>,
                                                depth: nat)
    requires depth <= MaxDepth
    ensures FieldsRedacted(RedactFields(lower, heap, fs, seen, depth).0, lower, heap, fs, seen, depth)
  {
    if fs != [] {
      var n := |fs| - 1;
      EveryFieldIsRedacted(lower, heap, fs[..n], seen, depth);
      LastFieldAt(lower, heap, fs, seen, depth);
      forall i | 0 <= i < n ensures FieldAt(lower, heap, fs[..n], seen, depth, i) == FieldAt(lower, heap, fs, seen, depth, i) {
        SameFieldAt(lower, heap, fs, seen, depth, n, i);
      }
    }
  }

  /** The redactor as it runs: one mutable set of seen objects, output filled in a loop. */
  class Redactor {
    const lower: string -> string
    const heap: Heap
    var seen: set<Ref>

    constructor (lower: string -> string, heap: Heap)
      ensures this.lower == lower && this.heap == heap && seen == {}
    {
      this.lower, this.heap, seen := lower, heap, {};
    }

    method Run(v: Value, depth: nat) returns (t: Tree)
      requires depth <= MaxDepth
      modifies this
      ensures (t, seen) == Redact(lower, heap, v, old(seen), depth)
      ensures v.Plain? ==> t == Leaf(v.scalar)
      ensures v.Object? && heap(v.ref).Date? ==> t == Leaf(Text(heap(v.ref).iso))
      ensures v.Object? && !heap(v.ref).Date? && depth == 12 ==> t == Leaf(Text("[Truncated]"))
      ensures v.Object? && !heap(v.ref).Date? && depth < 12 && v.ref in old(seen) ==> t == Leaf(Text("[Circular]"))
      ensures v.Object? && heap(v.ref).Array? && depth < 12 && v.ref !in old(seen) ==>
        t.List? && ItemsRedacted(t.items, lower, heap, heap(v.ref).items, old(seen) + {v.ref}, depth + 1)
      ensures v.Object? && heap(v.ref).Record? && depth < 12 && v.ref !in old(seen) ==>
        t.Dict? && FieldsRedacted(t.fields, lower, heap, heap(v.ref).fields, old(seen) + {v.ref}, depth + 1)
      decreases MaxDepth - depth
    {
      if v.Plain? {
        return Leaf(v.scalar);
      }
      var node := heap(v.ref);
      if node.Date? {
        return Mark(node.iso);
      }
      if depth == MaxDepth {
        return Mark("[Truncated]");
      }
      if v.ref in seen {
        return Mark("[Circular]");
      }
      seen := seen + {v.ref};
      ghost var before := seen;
      if node.Array? {
        var items: seq<Tree> := [];
        assert node.items[..0] == [];
        for i := 0 to |node.items|
          invariant (items, seen) == RedactItems(lower, heap, node.items[..i], before, depth + 1)
        {
          assert node.items[..i + 1][..i] == node.items[..i];
          var item := Run(node.items[i], depth + 1);
          items := items + [item];
        }
        assert node.items[..|node.items|] == node.items;
        EveryItemIsRedacted(lower, heap, node.items, before, depth + 1);
        return List(items);
      }
      var out: seq<Field<Tree>> := [];
      assert node.fields[..0] == [];
      for i := 0 to |node.fields|
        invariant (out, seen) == RedactFields(lower, heap, node.fields[..i], before, depth + 1)
      {
        assert node.fields[..i + 1][..i] == node.fields[..i];
        var f := node.fields[i];
        if ShouldRedact(lower, f.key) {
          out := out + [Field(f.key, Redacted())];
        } else {
          var value := Run(f.value, depth + 1);
          out := out + [Field(f.key, value)];
        }
      }
      assert node.fields[..|node.fields|] == node.fields;
      EveryFieldIsRedacted(lower, heap, node.fields, before, depth + 1);
      return Dict(out);
    }
  }

  // ---- shape of the result --------------------------------------------------

  /** At most `d` containers deep. */
  predicate Fits(t: Tree, d: nat) {
    match t
    case Leaf(_) => true
    case List(items) => d > 0 && ItemsFit(items, d - 1)
    case Dict(fields) => d > 0 && FieldsFit(fields, d - 1)
  }

  predicate ItemsFit(ts: seq<Tree>, d: nat) {
    ts == [] || (ItemsFit(ts[..|ts| - 1], d) && Fits(Last(ts), d))
  }

  predicate FieldsFit(fs: seq<Field<Tree>>, d: nat) {
    fs == [] || (FieldsFit(fs[..|fs| - 1], d) && Fits(Last(fs).value, d))
  }

  /** Every sensitive key holds the redaction marker. */
  ghost predicate Masked(lower: string -> string, t: Tree) {
    match t
    case Leaf(_) => true
    case List(items) => ItemsMasked(lower, items)
    case Dict(fields) => FieldsMasked(lower, fields)
  }

  ghost predicate ItemsMasked(lower: string -> string, ts: seq<Tree>) {
    ts == [] || (ItemsMasked(lower, ts[..|ts| - 1]) && Masked(lower, Last(ts)))
  }

  ghost predicate FieldsMasked(lower: string -> string, fs: seq<Field<Tree>>) {
    fs == []
    || (FieldsMasked(lower, fs[..|fs| - 1]) && Masked(lower, Last(fs).value)
        && (NamesSecret(lower(Last(fs).key)) ==> Last(fs).value == Redacted()))
  }

  ghost predicate Safe(lower: string -> string, t: Tree, d: nat) {
    Fits(t, d) && Masked(lower, t)
  }

  ghost predicate ItemsSafe(lower: string -> string, ts: seq<Tree>, d: nat) {
    ItemsFit(ts, d) && ItemsMasked(lower, ts)
  }

  ghost predicate FieldSafe(lower: string -> string, f: Field<Tree>, d: nat) {
    Safe(lower, f.value, d) && (NamesSecret(lower(f.key)) ==> f.value == Redacted())
  }

  ghost predicate FieldsSafe(lower: string -> string, fs: seq<Field<Tree>>, d: nat) {
    FieldsFit(fs, d) && FieldsMasked(lower, fs)
  }

  lemma ItemsSafeNext(lower: string -> string, ts: seq<Tree>, t: Tree, d: nat)
    ensures ItemsSafe(lower, ts + [t], d) <==> ItemsSafe(lower, ts, d) && Safe(lower, t, d)
  {
    assert (ts + [t])[..|ts|] == ts;
  }

  lemma FieldsSafeNext(lower: string -> string, fs: seq<Field<Tree>>, f: Field<Tree>, d: nat)
    ensures FieldsSafe(lower, fs + [f], d) <==> FieldsSafe(lower, fs, d) && FieldSafe(lower, f, d)
  {
    assert (fs + [f])[..|fs|] == fs;
  }

  lemma {:induction false} RedactIsSafe(lower: string -> string, heap: Heap, v: Value, seen: set<Ref>, depth: nat)
    requires depth <= MaxDepth
    ensures Safe(lower, Redact(lower, heap, v, seen, depth).0, MaxDepth - depth)
    decreases MaxDepth - depth, 0
  {
    if v.Object? && depth < MaxDepth && v.ref !in seen {
      var node := heap(v.ref);
      if node.Array? {
        ItemsAreSafe(lower, heap, node.items, seen + {v.ref}, depth + 1);
      } else if node.Record? {
        FieldsAreSafe(lower, heap, node.fields, seen + {v.ref}, depth + 1);
      }
    }
  }

  lemma {:induction false} ItemsAreSafe(lower: string -> string, heap: Heap, vs: seq<Value>, seen: set<Ref>, depth: nat)
    requires depth <= MaxDepth
    ensures ItemsSafe(lower, RedactItems(lower, heap, vs, seen, depth).0, MaxDepth - depth)
    decreases MaxDepth - depth, |vs|
  {
    if vs != [] {
      var init := vs[..|vs| - 1];
      var (ts, s) := RedactItems(lower, heap, init, seen, depth);
      ItemsAreSafe(lower, heap, init, seen, depth);
      RedactIsSafe(lower, heap, Last(vs), s, depth);
      ItemsSafeNext(lower, ts, Redact(lower, heap, Last(vs), s, depth).0, MaxDepth - depth);
    }
  }

  lemma {:induction false} FieldsAreSafe(lower: string -> string, heap: Heap, fs: seq<Field<Value>>, seen: set<Ref>, depth: nat)
    requires depth <= MaxDepth
    ensures FieldsSafe(lower, RedactFields(lower, heap, fs, seen, depth).0, MaxDepth - depth)
    decreases MaxDepth - depth, |fs| + 1
  {
    if fs != [] {
      var init := fs[..|fs| - 1];
      var (ts, s) := RedactFields(lower, heap, init, seen, depth);
      FieldsAreSafe(lower, heap, init, seen, depth);
      FieldIsSafe(lower, heap, Last(fs), s, depth);
      FieldsSafeNext(lower, ts, RedactField(lower, heap, Last(fs), s, depth).0, MaxDepth - depth);
    }
  }

  lemma {:induction false} FieldIsSafe(lower: string -> string, heap: Heap, f: Field<Value>, seen: set<Ref>, depth: nat)
    requires depth <= MaxDepth
    ensures FieldSafe(lower, RedactField(lower, heap, f, seen, depth).0, MaxDepth - depth)
    decreases MaxDepth - depth, 1
  {
    SensitiveIff(lower, f.key);
    if !NamesSecret(lower(f.key)) {
      RedactIsSafe(lower, heap, f.value, seen, depth);
    }
  }

  // ---- secrets do not get through -------------------------------------------

  /** Two objects that differ at most in what their sensitive keys hold. */
  ghost predicate SameButSecrets(lower: string -> string, a: Node, b: Node) {
    match a
    case Record(fs) =>
      && b.Record? && |b.fields| == |fs|
      && forall i :: 0 <= i < |fs| ==>
           b.fields[i].key == fs[i].key && (NamesSecret(lower(fs[i].key)) || b.fields[i] == fs[i])
    case _ => a == b
  }

  /** What sensitive keys hold has no influence on the output, nor on which objects count as seen. */
  lemma {:induction false} SecretsDoNotGetThrough(lower: string -> string, h: Heap, h': Heap, v: Value, seen: set<Ref>, depth: nat)
    requires depth <= MaxDepth && forall r :: SameButSecrets(lower, h(r), h'(r))
    ensures Redact(lower, h, v, seen, depth) == Redact(lower, h', v, seen, depth)
    decreases MaxDepth - depth, 0
  {
    if v.Object? && depth < MaxDepth && v.ref !in seen {
      var node, node' := h(v.ref), h'(v.ref);
      assert SameButSecrets(lower, node, node');
      if node.Array? {
        SameItems(lower, h, h', node.items, seen + {v.ref}, depth + 1);
      } else if node.Record? {
        SameFields(lower, h, h', node.fields, node'.fields, seen + {v.ref}, depth + 1);
      }
    }
  }

  lemma {:induction false} SameItems(lower: string -> string, h: Heap, h': Heap, vs: seq<Value>, seen: set<Ref>, depth: nat)
    requires depth <= MaxDepth && forall r :: SameButSecrets(lower, h(r), h'(r))
    ensures RedactItems(lower, h, vs, seen, depth) == RedactItems(lower, h', vs, seen, depth)
    decreases MaxDepth - depth, |vs|
  {
    if vs != [] {
      var init := vs[..|vs| - 1];
      SameItems(lower, h, h', init, seen, depth);
      SecretsDoNotGetThrough(lower, h, h', Last(vs), RedactItems(lower, h, init, seen, depth).1, depth);
    }
  }

  lemma {:induction false} SameFields(lower: string -> string, h: Heap, h': Heap, fs: seq<Field<Value>>, fs': seq<Field<Value>>,
                                      seen: set<Ref>, depth: nat)
    requires depth <= MaxDepth && forall r :: SameButSecrets(lower, h(r), h'(r))
    requires SameButSecrets(lower, Record(fs), Record(fs'))
    ensures RedactFields(lower, h, fs, seen, depth) == RedactFields(lower, h', fs', seen, depth)
    decreases MaxDepth - depth, |fs|
  {
    if fs != [] {
      var init, init' := fs[..|fs| - 1], fs'[..|fs| - 1];
      SameFields(lower, h, h', init, init', seen, depth);
      SensitiveIff(lower, Last(fs).key);
      if !NamesSecret(lower(Last(fs).key)) {
        SecretsDoNotGetThrough(lower, h, h', Last(fs).value, RedactFields(lower, h, init, seen, depth).1, depth);
      }
    }
  }

  // ---- trees in memory ------------------------------------------------------

  /** A tree laid out in memory: every container at its own object; `keys` name the items of a record. */
  datatype Cell = Atom(scalar: Scalar) | ListAt(ref: Ref, items: seq<Cell>) | DictAt(ref: Ref, keys: seq<string>, items: seq<Cell>)

  function ValueOf(c: Cell): Value {
    if c.Atom? then Plain(c.scalar) else Object(c.ref)
  }

  function Values(items: seq<Cell>): (r: seq<Value>)
    ensures |r| == |items|
  {
    if items == [] then [] else Values(items[..|items| - 1]) + [ValueOf(Last(items))]
  }

  function Zip<V>(keys: seq<string>, vs: seq<V>): (r: seq<Field<V>>)
    requires |keys| == |vs|
    ensures |r| == |vs|
  {
    seq(|vs|, i requires 0 <= i < |vs| => Field(keys[i], vs[i]))
  }

  /** As many keys as items, all the way down. */
  predicate Keyed(c: Cell) {
    match c
    case Atom(_) => true
    case ListAt(_, items) => ItemsKeyed(items)
    case DictAt(_, keys, items) => |keys| == |items| && ItemsKeyed(items)
  }

  predicate ItemsKeyed(items: seq<Cell>) {
    items == [] || (ItemsKeyed(items[..|items| - 1]) && Keyed(Last(items)))
  }

  /** The tree without its addresses. */
  function Erase(c: Cell): Tree
    requires Keyed(c)
  {
    match c
    case Atom(s) => Leaf(s)
    case ListAt(_, items) => List(EraseItems(items))
    case DictAt(_, keys, items) => Dict(Zip(keys, EraseItems(items)))
  }

  function EraseItems(items: seq<Cell>): (r: seq<Tree>)
    requires ItemsKeyed(items)
    ensures |r| == |items|
  {
    if items == [] then [] else EraseItems(items[..|items| - 1]) + [Erase(Last(items))]
  }

  function Refs(c: Cell): set<Ref> {
    if c.Atom? then {} else {c.ref} + RefsOfItems(c.items)
  }

  function RefsOfItems(items: seq<Cell>): set<Ref> {
    if items == [] then {} else RefsOfItems(items[..|items| - 1]) + Refs(Last(items))
  }

  /** No object occurs twice: nothing is shared and nothing is cyclic. */
  predicate Unshared(c: Cell) {
    c.Atom? || (c.ref !in RefsOfItems(c.items) && ItemsUnshared(c.items))
  }

  predicate ItemsUnshared(items: seq<Cell>) {
    items == []
    || (ItemsUnshared(items[..|items| - 1]) && Unshared(Last(items)) && RefsOfItems(items[..|items| - 1]) !! Refs(Last(items)))
  }

  /** The heap holds the cell. */
  ghost predicate Holds(heap: Heap, c: Cell) {
    match c
    case Atom(_) => true
    case ListAt(r, items) => heap(r) == Array(Values(items)) && ItemsHeld(heap, items)
    case DictAt(r, keys, items) =>
      |keys| == |items| && heap(r) == Record(Zip(keys, Values(items))) && ItemsHeld(heap, items)
  }

  ghost predicate ItemsHeld(heap: Heap, items: seq<Cell>) {
    items == [] || (ItemsHeld(heap, items[..|items| - 1]) && Holds(heap, Last(items)))
  }

  ghost predicate Fresh(c: Cell, heap: Heap, seen: set<Ref>) {
    Keyed(c) && Holds(heap, c) && Unshared(c) && Refs(c) !! seen
  }

  ghost predicate ItemsFresh(items: seq<Cell>, heap: Heap, seen: set<Ref>) {
    ItemsKeyed(items) && ItemsHeld(heap, items) && ItemsUnshared(items) && RefsOfItems(items) !! seen
  }

  lemma RedactItemsNext(lower: string -> string, heap: Heap, vs: seq<Value>, v: Value, seen: set<Ref>, depth: nat)
    requires depth <= MaxDepth
    ensures var (ts, s) := RedactItems(lower, heap, vs, seen, depth);
      var (t, s') := Redact(lower, heap, v, s, depth);
      RedactItems(lower, heap, vs + [v], seen, depth) == (ts + [t], s')
  {
    assert (vs + [v])[..|vs|] == vs;
  }

  lemma RedactFieldsNext(lower: string -> string, heap: Heap, fs: seq<Field<Value>>, f: Field<Value>, seen: set<Ref>, depth: nat)
    requires depth <= MaxDepth
    ensures var (ts, s) := RedactFields(lower, heap, fs, seen, depth);
      var (t, s') := RedactField(lower, heap, f, s, depth);
      RedactFields(lower, heap, fs + [f], seen, depth) == (ts + [t], s')
  {
    assert (fs + [f])[..|fs|] == fs;
  }

  lemma FreshInside(c: Cell, heap: Heap, seen: set<Ref>)
    requires Fresh(c, heap, seen) && !c.Atom?
    ensures c.ref !in seen && ItemsFresh(c.items, heap, seen + {c.ref})
    ensures seen + Refs(c) == seen + {c.ref} + RefsOfItems(c.items)
  {
  }

  lemma FreshParts(items: seq<Cell>, heap: Heap, seen: set<Ref>)
    requires items != [] && ItemsFresh(items, heap, seen)
    ensures var init := items[..|items| - 1];
      && ItemsFresh(init, heap, seen) && Fresh(Last(items), heap, seen + RefsOfItems(init))
      && seen + RefsOfItems(items) == seen + RefsOfItems(init) + Refs(Last(items))
  {
  }

  /** What redacting an object that was not seen comes to. */
  lemma ListRedacts(lower: string -> string, heap: Heap, c: Cell, seen: set<Ref>, depth: nat)
    requires depth < MaxDepth && c.ListAt? && Holds(heap, c) && c.ref !in seen
    ensures var (items, s) := RedactItems(lower, heap, Values(c.items), seen + {c.ref}, depth + 1);
      Redact(lower, heap, ValueOf(c), seen, depth) == (List(items), s)
  {
  }

  lemma DictRedacts(lower: string -> string, heap: Heap, c: Cell, seen: set<Ref>, depth: nat)
    requires depth < MaxDepth && c.DictAt? && Holds(heap, c) && c.ref !in seen
    ensures var (fields, s) := RedactFields(lower, heap, Zip(c.keys, Values(c.items)), seen + {c.ref}, depth + 1);
      Redact(lower, heap, ValueOf(c), seen, depth) == (Dict(fields), s)
  {
  }

  lemma SafeInsideList(lower: string -> string, c: Cell, d: nat)
    requires c.ListAt? && Keyed(c) && Safe(lower, Erase(c), d)
    ensures d > 0 && ItemsSafe(lower, EraseItems(c.items), d - 1)
  {
    assert Erase(c).List? && Erase(c).items == EraseItems(c.items);
  }

  lemma SafeInsideDict(lower: string -> string, c: Cell, d: nat)
    requires c.DictAt? && Keyed(c) && Safe(lower, Erase(c), d)
    ensures d > 0 && |c.keys| == |c.items| && FieldsSafe(lower, Zip(c.keys, EraseItems(c.items)), d - 1)
  {
    assert Erase(c).Dict? && Erase(c).fields == Zip(c.keys, EraseItems(c.items));
  }

  /** A safe tree laid out in memory is copied as it is. */
  lemma {:induction false} SafeTreesAreCopied(lower: string -> string, heap: Heap, c: Cell, seen: set<Ref>, depth: nat)
    requires depth <= MaxDepth && Fresh(c, heap, seen) && Safe(lower, Erase(c), MaxDepth - depth)
    ensures Redact(lower, heap, ValueOf(c), seen, depth) == (Erase(c), seen + Refs(c))
    decreases MaxDepth - depth, 0, 1
  {
    if c.Atom? {
      assert seen + {} == seen;
    } else if c.ListAt? {
      CopyList(lower, heap, c, seen, depth);
    } else {
      CopyDict(lower, heap, c, seen, depth);
    }
  }

  lemma {:induction false} CopyList(lower: string -> string, heap: Heap, c: Cell, seen: set<Ref>, depth: nat)
    requires depth <= MaxDepth && c.ListAt? && Fresh(c, heap, seen) && Safe(lower, Erase(c), MaxDepth - depth)
    ensures Redact(lower, heap, ValueOf(c), seen, depth) == (Erase(c), seen + Refs(c))
    decreases MaxDepth - depth, 0, 0
  {
    FreshInside(c, heap, seen);
    SafeInsideList(lower, c, MaxDepth - depth);
    CopyItems(lower, heap, c.items, seen + {c.ref}, depth + 1);
    ListCopied(lower, heap, c, seen, depth);
  }

  lemma {:induction false} CopyDict(lower: string -> string, heap: Heap, c: Cell, seen: set<Ref>, depth: nat)
    requires depth <= MaxDepth && c.DictAt? && Fresh(c, heap, seen) && Safe(lower, Erase(c), MaxDepth - depth)
    ensures Redact(lower, heap, ValueOf(c), seen, depth) == (Erase(c), seen + Refs(c))
    decreases MaxDepth - depth, 0, 0
  {
    FreshInside(c, heap, seen);
    SafeInsideDict(lower, c, MaxDepth - depth);
    CopyFields(lower, heap, c.keys, c.items, seen + {c.ref}, depth + 1);
    DictCopied(lower, heap, c, seen, depth);
  }

  lemma ListCopied(lower: string -> string, heap: Heap, c: Cell, seen: set<Ref>, depth: nat)
    requires depth < MaxDepth && c.ListAt? && Fresh(c, heap, seen)
    requires var inside := seen + {c.ref};
      RedactItems(lower, heap, Values(c.items), inside, depth + 1) == (EraseItems(c.items), inside + RefsOfItems(c.items))
    ensures Redact(lower, heap, ValueOf(c), seen, depth) == (Erase(c), seen + Refs(c))
  {
    FreshInside(c, heap, seen);
    ListRedacts(lower, heap, c, seen, depth);
  }

  lemma DictCopied(lower: string -> string, heap: Heap, c: Cell, seen: set<Ref>, depth: nat)
    requires depth < MaxDepth && c.DictAt? && Fresh(c, heap, seen)
    requires var inside := seen + {c.ref};
      RedactFields(lower, heap, Zip(c.keys, Values(c.items)), inside, depth + 1)
      == (Zip(c.keys, EraseItems(c.items)), inside + RefsOfItems(c.items))
    ensures Redact(lower, heap, ValueOf(c), seen, depth) == (Erase(c), seen + Refs(c))
  {
    FreshInside(c, heap, seen);
    DictRedacts(lower, heap, c, seen, depth);
  }

  lemma {:induction false} CopyItems(lower: string -> string, heap: Heap, items: seq<Cell>, seen: set<Ref>, depth: nat)
    requires depth <= MaxDepth && ItemsFresh(items, heap, seen) && ItemsSafe(lower, EraseItems(items), MaxDepth - depth)
    ensures RedactItems(lower, heap, Values(items), seen, depth) == (EraseItems(items), seen + RefsOfItems(items))
    decreases MaxDepth - depth, |items|
  {
    if items == [] {
      assert seen + {} == seen;
    } else {
      var init, last := items[..|items| - 1], Last(items);
      assert EraseItems(items)[..|init|] == EraseItems(init);
      FreshParts(items, heap, seen);
      CopyItems(lower, heap, init, seen, depth);
      SafeTreesAreCopied(lower, heap, last, seen + RefsOfItems(init), depth);
      RedactItemsNext(lower, heap, Values(init), ValueOf(last), seen, depth);
    }
  }

  lemma {:induction false} CopyFields(lower: string -> string, heap: Heap, keys: seq<string>, items: seq<Cell>, seen: set<Ref>,
                                      depth: nat)
    requires depth <= MaxDepth && ItemsFresh(items, heap, seen) && |keys| == |items|
    requires FieldsSafe(lower, Zip(keys, EraseItems(items)), MaxDepth - depth)
    ensures RedactFields(lower, heap, Zip(keys, Values(items)), seen, depth)
            == (Zip(keys, EraseItems(items)), seen + RefsOfItems(items))
    decreases MaxDepth - depth, |items| + 1
  {
    if items == [] {
      assert seen + {} == seen;
    } else {
      var init, last := items[..|items| - 1], Last(items);
      FieldsSafeInside(lower, keys, items, MaxDepth - depth);
      FreshParts(items, heap, seen);
      CopyFields(lower, heap, keys[..|init|], init, seen, depth);
      CopyField(lower, heap, Last(keys), last, seen + RefsOfItems(init), depth);
      CopyFieldsNext(lower, heap, keys, items, seen, depth);
    }
  }

  lemma CopyFieldsNext(lower: string -> string, heap: Heap, keys: seq<string>, items: seq<Cell>, seen: set<Ref>, depth: nat)
    requires depth <= MaxDepth && items != [] && |keys| == |items| && ItemsFresh(items, heap, seen)
    requires var n := |items| - 1;
      var s := seen + RefsOfItems(items[..n]);
      && RedactFields(lower, heap, Zip(keys[..n], Values(items[..n])), seen, depth) == (Zip(keys[..n], EraseItems(items[..n])), s)
      && RedactField(lower, heap, Field(Last(keys), ValueOf(Last(items))), s, depth)
         == (Field(Last(keys), Erase(Last(items))), s + Refs(Last(items)))
    ensures RedactFields(lower, heap, Zip(keys, Values(items)), seen, depth)
            == (Zip(keys, EraseItems(items)), seen + RefsOfItems(items))
  {
    var n := |items| - 1;
    ZipNext(keys, items);
    FreshParts(items, heap, seen);
    RedactFieldsNext(lower, heap, Zip(keys[..n], Values(items[..n])), Field(Last(keys), ValueOf(Last(items))), seen, depth);
  }

  lemma ZipLast<V>(keys: seq<string>, vs: seq<V>, v: V)
    requires |keys| == |vs| + 1
    ensures Zip(keys, vs + [v]) == Zip(keys[..|vs|], vs) + [Field(Last(keys), v)]
  {
  }

  /** Keys and items with the last of each split off. */
  lemma ZipNext(keys: seq<string>, items: seq<Cell>)
    requires items != [] && |keys| == |items| && ItemsKeyed(items)
    ensures var n := |items| - 1;
      && Zip(keys, Values(items)) == Zip(keys[..n], Values(items[..n])) + [Field(Last(keys), ValueOf(Last(items)))]
      && Zip(keys, EraseItems(items)) == Zip(keys[..n], EraseItems(items[..n])) + [Field(Last(keys), Erase(Last(items)))]
  {
    var n := |items| - 1;
    ZipLast(keys, Values(items[..n]), ValueOf(Last(items)));
    ZipLast(keys, EraseItems(items[..n]), Erase(Last(items)));
  }

  lemma FieldsSafeInside(lower: string -> string, keys: seq<string>, items: seq<Cell>, d: nat)
    requires items != [] && |keys| == |items| && ItemsKeyed(items) && FieldsSafe(lower, Zip(keys, EraseItems(items)), d)
    ensures var n := |items| - 1;
      && FieldsSafe(lower, Zip(keys[..n], EraseItems(items[..n])), d)
      && FieldSafe(lower, Field(Last(keys), Erase(Last(items))), d)
  {
    var n := |items| - 1;
    ZipNext(keys, items);
    FieldsSafeNext(lower, Zip(keys[..n], EraseItems(items[..n])), Field(Last(keys), Erase(Last(items))), d);
  }

  lemma {:induction false} CopyField(lower: string -> string, heap: Heap, key: string, c: Cell, seen: set<Ref>, depth: nat)
    requires depth <= MaxDepth && Fresh(c, heap, seen) && FieldSafe(lower, Field(key, Erase(c)), MaxDepth - depth)
    ensures RedactField(lower, heap, Field(key, ValueOf(c)), seen, depth) == (Field(key, Erase(c)), seen + Refs(c))
    decreases MaxDepth - depth, 1
  {
    SensitiveIff(lower, key);
    if NamesSecret(lower(key)) {
      assert c.Atom? && seen + {} == seen;
    } else {
      SafeTreesAreCopied(lower, heap, c, seen, depth);
    }
  }

  // ---- what comes out unchanged was unshared --------------------------------

  lemma AppendInjective<T>(a: seq<T>, x: T, b: seq<T>, y: T)
    requires a + [x] == b + [y]
    ensures a == b && x == y
  {
    assert |a + [x]| == |b + [y]| && (a + [x])[..|a|] == a && (b + [y])[..|b|] == b;
    assert (a + [x])[|a|] == x && (b + [y])[|b|] == y;
  }

  /** The cell has no sharing of its own and none with `seen`. */
  ghost predicate NewTo(c: Cell, seen: set<Ref>, after: set<Ref>) {
    Unshared(c) && Refs(c) !! seen && after == seen + Refs(c)
  }

  ghost predicate ItemsNewTo(items: seq<Cell>, seen: set<Ref>, after: set<Ref>) {
    ItemsUnshared(items) && RefsOfItems(items) !! seen && after == seen + RefsOfItems(items)
  }

  lemma NewToNext(items: seq<Cell>, seen: set<Ref>, between: set<Ref>, after: set<Ref>)
    requires items != [] && ItemsNewTo(items[..|items| - 1], seen, between) && NewTo(Last(items), between, after)
    ensures ItemsNewTo(items, seen, after)
  {
  }

  lemma NewToNothing(seen: set<Ref>)
    ensures ItemsNewTo([], seen, seen)
  {
    assert seen + {} == seen;
  }

  lemma NewToInside(c: Cell, seen: set<Ref>, after: set<Ref>)
    requires !c.Atom? && c.ref !in seen && ItemsNewTo(c.items, seen + {c.ref}, after)
    ensures NewTo(c, seen, after)
  {
    assert seen + ({c.ref} + RefsOfItems(c.items)) == seen + {c.ref} + RefsOfItems(c.items);
  }

  /** An object seen before, or too deep, does not come out as a container, so one that does was copied item by item. */
  lemma ListInside(lower: string -> string, heap: Heap, c: Cell, seen: set<Ref>, depth: nat)
    requires depth <= MaxDepth && c.ListAt? && Keyed(c) && Holds(heap, c)
    requires Redact(lower, heap, ValueOf(c), seen, depth).0 == Erase(c)
    ensures depth < MaxDepth && c.ref !in seen
    ensures RedactItems(lower, heap, Values(c.items), seen + {c.ref}, depth + 1)
            == (EraseItems(c.items), Redact(lower, heap, ValueOf(c), seen, depth).1)
  {
    assert Erase(c) == List(EraseItems(c.items));
    assert depth < MaxDepth && c.ref !in seen;
    ListRedacts(lower, heap, c, seen, depth);
  }

  lemma DictInside(lower: string -> string, heap: Heap, c: Cell, seen: set<Ref>, depth: nat)
    requires depth <= MaxDepth && c.DictAt? && Keyed(c) && Holds(heap, c)
    requires Redact(lower, heap, ValueOf(c), seen, depth).0 == Erase(c)
    ensures depth < MaxDepth && c.ref !in seen
    ensures RedactFields(lower, heap, Zip(c.keys, Values(c.items)), seen + {c.ref}, depth + 1)
            == (Zip(c.keys, EraseItems(c.items)), Redact(lower, heap, ValueOf(c), seen, depth).1)
  {
    assert Erase(c) == Dict(Zip(c.keys, EraseItems(c.items)));
    assert depth < MaxDepth && c.ref !in seen;
    DictRedacts(lower, heap, c, seen, depth);
  }

  lemma {:induction false} CopyMeansUnshared(lower: string -> string, heap: Heap, c: Cell, seen: set<Ref>, depth: nat)
    requires depth <= MaxDepth && Keyed(c) && Holds(heap, c) && Safe(lower, Erase(c), MaxDepth - depth)
    requires Redact(lower, heap, ValueOf(c), seen, depth).0 == Erase(c)
    ensures NewTo(c, seen, Redact(lower, heap, ValueOf(c), seen, depth).1)
    decreases MaxDepth - depth, 0, 1
  {
    if c.Atom? {
      assert seen + {} == seen;
    } else if c.ListAt? {
      ListMeansUnshared(lower, heap, c, seen, depth);
    } else {
      DictMeansUnshared(lower, heap, c, seen, depth);
    }
  }

  lemma {:induction false} ListMeansUnshared(lower: string -> string, heap: Heap, c: Cell, seen: set<Ref>, depth: nat)
    requires depth <= MaxDepth && c.ListAt? && Keyed(c) && Holds(heap, c) && Safe(lower, Erase(c), MaxDepth - depth)
    requires Redact(lower, heap, ValueOf(c), seen, depth).0 == Erase(c)
    ensures NewTo(c, seen, Redact(lower, heap, ValueOf(c), seen, depth).1)
    decreases MaxDepth - depth, 0, 0
  {
    ListInside(lower, heap, c, seen, depth);
    SafeInsideList(lower, c, MaxDepth - depth);
    ItemsMeanUnshared(lower, heap, c.items, seen + {c.ref}, depth + 1);
    NewToInside(c, seen, Redact(lower, heap, ValueOf(c), seen, depth).1);
  }

  lemma {:induction false} DictMeansUnshared(lower: string -> string, heap: Heap, c: Cell, seen: set<Ref>, depth: nat)
    requires depth <= MaxDepth && c.DictAt? && Keyed(c) && Holds(heap, c) && Safe(lower, Erase(c), MaxDepth - depth)
    requires Redact(lower, heap, ValueOf(c), seen, depth).0 == Erase(c)
    ensures NewTo(c, seen, Redact(lower, heap, ValueOf(c), seen, depth).1)
    decreases MaxDepth - depth, 0, 0
  {
    DictInside(lower, heap, c, seen, depth);
    SafeInsideDict(lower, c, MaxDepth - depth);
    FieldsMeanUnshared(lower, heap, c.keys, c.items, seen + {c.ref}, depth + 1);
    NewToInside(c, seen, Redact(lower, heap, ValueOf(c), seen, depth).1);
  }

  lemma {:induction false} ItemsMeanUnshared(lower: string -> string, heap: Heap, items: seq<Cell>, seen: set<Ref>, depth: nat)
    requires depth <= MaxDepth && ItemsKeyed(items) && ItemsHeld(heap, items)
    requires ItemsSafe(lower, EraseItems(items), MaxDepth - depth)
    requires RedactItems(lower, heap, Values(items), seen, depth).0 == EraseItems(items)
    ensures ItemsNewTo(items, seen, RedactItems(lower, heap, Values(items), seen, depth).1)
    decreases MaxDepth - depth, |items|
  {
    if items == [] {
      NewToNothing(seen);
    } else {
      var init, last := items[..|items| - 1], Last(items);
      var (ts, s) := RedactItems(lower, heap, Values(init), seen, depth);
      var (t, s') := Redact(lower, heap, ValueOf(last), s, depth);
      RedactItemsNext(lower, heap, Values(init), ValueOf(last), seen, depth);
      AppendInjective(ts, t, EraseItems(init), Erase(last));
      assert EraseItems(items)[..|init|] == EraseItems(init);
      ItemsMeanUnshared(lower, heap, init, seen, depth);
      CopyMeansUnshared(lower, heap, last, s, depth);
      NewToNext(items, seen, s, s');
    }
  }

  lemma {:induction false} FieldsMeanUnshared(lower: string -> string, heap: Heap, keys: seq<string>, items: seq<Cell>,
                                              seen: set<Ref>, depth: nat)
    requires depth <= MaxDepth && ItemsKeyed(items) && ItemsHeld(heap, items) && |keys| == |items|
    requires FieldsSafe(lower, Zip(keys, EraseItems(items)), MaxDepth - depth)
    requires RedactFields(lower, heap, Zip(keys, Values(items)), seen, depth).0 == Zip(keys, EraseItems(items))
    ensures ItemsNewTo(items, seen, RedactFields(lower, heap, Zip(keys, Values(items)), seen, depth).1)
    decreases MaxDepth - depth, |items| + 1
  {
    if items == [] {
      NewToNothing(seen);
    } else {
      var init, last := items[..|items| - 1], Last(items);
      var (_, s) := RedactFields(lower, heap, Zip(keys[..|init|], Values(init)), seen, depth);
      var (_, s') := RedactField(lower, heap, Field(Last(keys), ValueOf(last)), s, depth);
      FieldsInside(lower, heap, keys, items, seen, depth);
      FieldsSafeInside(lower, keys, items, MaxDepth - depth);
      FieldsMeanUnshared(lower, heap, keys[..|init|], init, seen, depth);
      FieldMeansUnshared(lower, heap, Last(keys), last, s, depth);
      NewToNext(items, seen, s, s');
    }
  }

  /** Fields that come out as they are, with the last of them split off. */
  lemma FieldsInside(lower: string -> string, heap: Heap, keys: seq<string>, items: seq<Cell>, seen: set<Ref>, depth: nat)
    requires depth <= MaxDepth && items != [] && |keys| == |items| && ItemsKeyed(items)
    requires RedactFields(lower, heap, Zip(keys, Values(items)), seen, depth).0 == Zip(keys, EraseItems(items))
    ensures var n := |items| - 1;
      var (ts, s) := RedactFields(lower, heap, Zip(keys[..n], Values(items[..n])), seen, depth);
      var (t, s') := RedactField(lower, heap, Field(Last(keys), ValueOf(Last(items))), s, depth);
      && ts == Zip(keys[..n], EraseItems(items[..n])) && t == Field(Last(keys), Erase(Last(items)))
      && s' == RedactFields(lower, heap, Zip(keys, Values(items)), seen, depth).1
  {
    var n := |items| - 1;
    var fs, f := Zip(keys[..n], Values(items[..n])), Field(Last(keys), ValueOf(Last(items)));
    var (ts, s) := RedactFields(lower, heap, fs, seen, depth);
    var (t, s') := RedactField(lower, heap, f, s, depth);
    ZipNext(keys, items);
    RedactFieldsNext(lower, heap, fs, f, seen, depth);
    AppendInjective(ts, t, Zip(keys[..n], EraseItems(items[..n])), Field(Last(keys), Erase(Last(items))));
  }

  lemma {:induction false} FieldMeansUnshared(lower: string -> string, heap: Heap, key: string, c: Cell, seen: set<Ref>, depth: nat)
    requires depth <= MaxDepth && Keyed(c) && Holds(heap, c) && FieldSafe(lower, Field(key, Erase(c)), MaxDepth - depth)
    requires RedactField(lower, heap, Field(key, ValueOf(c)), seen, depth).0 == Field(key, Erase(c))
    ensures NewTo(c, seen, RedactField(lower, heap, Field(key, ValueOf(c)), seen, depth).1)
    decreases MaxDepth - depth, 1
  {
    SensitiveIff(lower, key);
    if NamesSecret(lower(key)) {
      assert c.Atom? && seen + {} == seen;
    } else {
      CopyMeansUnshared(lower, heap, c, seen, depth);
    }
  }

  // ---- main results ---------------------------------------------------------

  /**
   * Whatever the object graph, the output is a tree at most twelve containers deep in which every key that names a
   * secret holds the marker.
   */
  lemma OutputIsSafe(lower: string -> string, heap: Heap, v: Value)
    ensures Safe(lower, Redact(lower, heap, v, {}, 0).0, 12)
  {
    RedactIsSafe(lower, heap, v, {}, 0);
  }

  /** Redacting a redacted value, wherever in memory it is, changes nothing. */
  lemma RedactIsIdempotent(lower: string -> string, heap: Heap, v: Value, heap': Heap, c: Cell)
    requires Fresh(c, heap', {}) && Erase(c) == Redact(lower, heap, v, {}, 0).0
    ensures Redact(lower, heap', ValueOf(c), {}, 0).0 == Redact(lower, heap, v, {}, 0).0
  {
    OutputIsSafe(lower, heap, v);
    SafeTreesAreCopied(lower, heap', c, {}, 0);
  }

  /** No sensitive key anywhere. */
  ghost predicate NoSecrets(lower: string -> string, t: Tree) {
    match t
    case Leaf(_) => true
    case List(items) => ItemsNoSecrets(lower, items)
    case Dict(fields) => FieldsNoSecrets(lower, fields)
  }

  ghost predicate ItemsNoSecrets(lower: string -> string, ts: seq<Tree>) {
    ts == [] || (ItemsNoSecrets(lower, ts[..|ts| - 1]) && NoSecrets(lower, Last(ts)))
  }

  ghost predicate FieldsNoSecrets(lower: string -> string, fs: seq<Field<Tree>>) {
    fs == []
    || (FieldsNoSecrets(lower, fs[..|fs| - 1]) && !NamesSecret(lower(Last(fs).key)) && NoSecrets(lower, Last(fs).value))
  }

  lemma {:induction false} NoSecretsIsMasked(lower: string -> string, t: Tree)
    requires NoSecrets(lower, t)
    ensures Masked(lower, t)
    decreases t
  {
    if t.List? {
      ItemsNoSecretsAreMasked(lower, t.items);
    } else if t.Dict? {
      FieldsNoSecretsAreMasked(lower, t.fields);
    }
  }

  lemma {:induction false} ItemsNoSecretsAreMasked(lower: string -> string, ts: seq<Tree>)
    requires ItemsNoSecrets(lower, ts)
    ensures ItemsMasked(lower, ts)
    decreases ts
  {
    if ts != [] {
      ItemsNoSecretsAreMasked(lower, ts[..|ts| - 1]);
      NoSecretsIsMasked(lower, Last(ts));
    }
  }

  lemma {:induction false} FieldsNoSecretsAreMasked(lower: string -> string, fs: seq<Field<Tree>>)
    requires FieldsNoSecrets(lower, fs)
    ensures FieldsMasked(lower, fs)
    decreases fs
  {
    if fs != [] {
      FieldsNoSecretsAreMasked(lower, fs[..|fs| - 1]);
      NoSecretsIsMasked(lower, Last(fs).value);
    }
  }

  /**
   * Exactly which values come out as they are: those within the depth limit whose sensitive keys already hold the
   * marker, and in which no object occurs twice.
   */
  lemma CopiedIff(lower: string -> string, heap: Heap, c: Cell)
    requires Keyed(c) && Holds(heap, c)
    ensures Redact(lower, heap, ValueOf(c), {}, 0).0 == Erase(c) <==> Safe(lower, Erase(c), MaxDepth) && Unshared(c)
  {
    if Redact(lower, heap, ValueOf(c), {}, 0).0 == Erase(c) {
      OutputIsSafe(lower, heap, ValueOf(c));
      CopyMeansUnshared(lower, heap, c, {}, 0);
    } else if Safe(lower, Erase(c), MaxDepth) && Unshared(c) {
      SafeTreesAreCopied(lower, heap, c, {}, 0);
    }
  }

  /** Without sensitive keys: a value comes out as it is exactly if it is within the depth limit and unshared. */
  lemma PlainTreesAreCopied(lower: string -> string, heap: Heap, c: Cell)
    requires Keyed(c) && Holds(heap, c) && NoSecrets(lower, Erase(c))
    ensures Redact(lower, heap, ValueOf(c), {}, 0).0 == Erase(c) <==> Fits(Erase(c), MaxDepth) && Unshared(c)
  {
    NoSecretsIsMasked(lower, Erase(c));
    CopiedIff(lower, heap, c);
  }

  /** A merely shared object comes out as circular the second time: a list that holds one empty record twice. */
  lemma SharedComesOutCircular(lower: string -> string, heap: Heap, list: Ref, record: Ref)
    requires list != record && heap(list) == Array([Object(record)] + [Object(record)]) && heap(record) == Record([])
    ensures Redact(lower, heap, Object(list), {}, 0).0 == List([Dict([])] + [Mark("[Circular]")])
  {
    var o := Object(record);
    assert RedactItems(lower, heap, [], {list}, 1) == ([], {list});
    assert RedactFields(lower, heap, [], {list} + {record}, 2) == ([], {list} + {record});
    RedactItemsNext(lower, heap, [], o, {list}, 1);
    assert [] + [o] == [o] && {} + {list} == {list} && [] + [Dict([])] == [Dict([])];
    RedactItemsNext(lower, heap, [o], o, {list}, 1);
  }
}
