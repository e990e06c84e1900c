/** The per-file record check of the proof-of-contribution scorer: which
    decoded documents earn a score of 1, which earn 0, and which make the
    check raise an exception that the scan's handler does not catch. */
module RecordCheck {
  import opened PyJson

  /** The top-level keys a record must have, in the order they are tested. */
  const TopKeys: seq<string> := ["address", "unixtime", "preferences"]

  /** The keys the `preferences` value must have, in the order they are tested. */
  const PreferenceKeys: seq<string> := ["categories", "likes"]

  /** The schema, stated declaratively: an object with `address` (a string),
      `unixtime` (an int, booleans included) and `preferences`, an object with
      `categories` (a list) and `likes` (an object). Other keys are ignored. */
  predicate Conforms(doc: Json) {
    doc.Obj? && "address" in doc.fields && "unixtime" in doc.fields && "preferences" in doc.fields &&
    var prefs := doc.fields["preferences"];
    prefs.Obj? && "categories" in prefs.fields && "likes" in prefs.fields &&
    StrInstance(doc.fields["address"]) && IntInstance(doc.fields["unixtime"]) &&
    ListInstance(prefs.fields["categories"]) && DictInstance(prefs.fields["likes"])
  }

  /** The documents on which the check raises a TypeError: a top-level value
      that supports no membership test; a top-level list or string that
      "contains" all three keys (it is then subscripted with a string); or an
      object whose `preferences` supports no membership test, or is a list or
      string "containing" both preference keys while `address` and `unixtime`
      pass their type tests (it is then subscripted with `categories`). */
  predicate Crashes(doc: Json) {
    match doc
    case Obj(m) =>
      "address" in m && "unixtime" in m && "preferences" in m &&
      PreferencesCrash(m["preferences"], m["address"], m["unixtime"])
    case Arr(_) => AllIn(doc, TopKeys)
    case Str(_) => AllIn(doc, TopKeys)
    case _ => true
  }

  /** The part of `Crashes` that concerns the `preferences` value of an object
      holding all three top-level keys. */
  predicate PreferencesCrash(prefs: Json, address: Json, unixtime: Json) {
    match prefs
    case Obj(_) => false
    case Arr(_) => AllIn(prefs, PreferenceKeys) && StrInstance(address) && IntInstance(unixtime)
    case Str(_) => AllIn(prefs, PreferenceKeys) && StrInstance(address) && IntInstance(unixtime)
    case _ => true
  }

  /** The body of the scan's `try` once the document is decoded, evaluated in
      the source's order: the top-level key test, the preference key test, then
      the four type tests joined by a short-circuiting `or`. A failed test
      scores 0; passing all of them scores 1. */
  function CheckDocument(doc: Json): (r: Eval<int>)
    ensures r.Done? ==> r.value == 0 || r.value == 1
    ensures r == Done(1) <==> Conforms(doc)
    ensures r.Raise? <==> Crashes(doc)
    ensures r.Raise? ==> r.error == TypeError
  {
    var hasKeys :- ContainsAll(doc, TopKeys);
    if !hasKeys then Done(0) else
    var prefs :- Index(doc, "preferences");
    var hasPreferenceKeys :- ContainsAll(prefs, PreferenceKeys);
    if !hasPreferenceKeys then Done(0) else
    // After the key tests, the subscripts of `address`, `unixtime` and
    // `likes` cannot raise. `:-` would still check its failure branch there,
    // and Dafny reports that check as proved from contradictory facts, so
    // those three failure branches are written as plain matches.
    match Index(doc, "address")
    case Raise(e) => Raise(e)
    case Done(address) =>
      if !StrInstance(address) then Done(0) else
      match Index(doc, "unixtime")
      case Raise(e) => Raise(e)
      case Done(unixtime) =>
        if !IntInstance(unixtime) then Done(0) else
        var categories :- Index(prefs, "categories");
        if !ListInstance(categories) then Done(0) else
        match Index(prefs, "likes")
        case Raise(e) => Raise(e)
        case Done(likes) =>
          if !DictInstance(likes) then Done(0) else Done(1)
  }

  /** A top-level key outside the schema changes nothing. */
  lemma ExtraTopLevelKeyIgnored(m: map<string, Json>, key: string, v: Json)
    requires key != "address" && key != "unixtime" && key != "preferences"
    ensures CheckDocument(Obj(m[key := v])) == CheckDocument(Obj(m))
  {
  }

  /** A key of `preferences` outside the schema changes nothing. */
  lemma ExtraPreferenceKeyIgnored(m: map<string, Json>, p: map<string, Json>, key: string, v: Json)
    requires "preferences" in m && m["preferences"] == Obj(p)
    requires key != "categories" && key != "likes"
    ensures CheckDocument(Obj(m["preferences" := Obj(p[key := v])])) == CheckDocument(Obj(m))
  {
  }

  /** `isinstance(v, int)` holds for booleans as well as ints, so in any
      conforming record, replacing `unixtime` by a bool or int keeps the score
      at 1 and replacing it by anything else (a float, a string, null, ...)
      makes it 0. */
  lemma TimestampTypes(m: map<string, Json>, unixtime: Json)
    requires Conforms(Obj(m))
    ensures CheckDocument(Obj(m["unixtime" := unixtime])) ==
      if IntInstance(unixtime) then Done(1) else Done(0)
  {
  }

  /** A document that is null, a bool or a number supports no membership
      test, so the first key test raises. */
  lemma ScalarDocument(doc: Json)
    requires doc.Null? || doc.Bool? || doc.Int? || doc.Float?
    ensures CheckDocument(doc) == Raise(TypeError)
  {
  }

  /** A list document is searched for the key names as elements: it scores 0
      unless it holds all three names as strings, and then the subscript that
      follows raises. */
  lemma ListDocument(items: seq<Json>)
    ensures CheckDocument(Arr(items)) ==
      if AllIn(Arr(items), TopKeys) then Raise(TypeError) else Done(0)
  {
  }

  /** A string document is searched for the key names as substrings: it
      scores 0 unless all three occur, and then the subscript that follows
      raises. */
  lemma StringDocument(text: string)
    ensures CheckDocument(Str(text)) ==
      if AllIn(Str(text), TopKeys) then Raise(TypeError) else Done(0)
  {
  }
}
