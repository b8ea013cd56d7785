// The app's own schema (News.swift): for it, the conditions of the main results about
// `create` hold of every value.
module AppSchema {
  import opened Options
  import opened PropertyTypes
  import opened Store
  import opened Engine
  import opened Framing
  import opened Policies
  import opened Idempotence
  import opened Validation

  function Optional(name: string, base: BaseType): Property {
    Property(name, PropertyType(base, true, false), 0, Absent)
  }

  /** A fresh source object: both properties null, the key included. */
  const NEW_SOURCE := Unmanaged([Given(Null), Given(Null)], false)

  const NEWS: nat := 0
  const SOURCE: nat := 1

  const APP: Schema := [
    ObjectSchema("News", [
      Property("source", PropertyType(Object, true, false), SOURCE, Given(NEW_SOURCE)),
      Optional("titleNews", String),
      Optional("urlNews", String),
      Optional("urlImage", String),
      Optional("publishedAt", Date),
      Optional("author", String),
      Optional("content", String),
      Optional("descriptionNews", String),
      Optional("categoryNews", String)], Some(2)),
    ObjectSchema("Source", [
      Optional("id", String),
      Optional("name", String)], Some(1))]

  lemma PlainProperty(s: Schema, p: Property, f: Field, top: bool)
    requires ValidProperty(|s|, p) && p.ty.base != Object && !p.ty.list
    ensures f.Given? ==> PropNames(s, p, f.value, top) == {} && PropFresh(s, p, f.value, top, NoRepeats)
  {
    if f.Given? {
      assert ElemNames(s, p, f.value, top) == {} && ElemFresh(s, p, f.value, top, NoRepeats);
    }
  }

  lemma {:induction false} NoNamesFrom(s: Schema, t: nat, v: Value, top: bool, i: nat)
    requires t < |s| && i <= |s[t].props|
    requires forall c :: i <= c < |s[t].props| ==> s[t].props[c].ty.base != Object && !s[t].props[c].ty.list
    ensures FieldNames(s, t, v, top, i) == {}
    ensures FieldsFresh(s, t, v, top, NoRepeats, i)
    decreases |s[t].props| - i
  {
    if i < |s[t].props| {
      NoNamesFrom(s, t, v, top, i + 1);
      PlainProperty(s, s[t].props[i], Supplied(s, t, v, i, top), SubTop(v, i, top));
      assert NamesAt(s, t, v, top, i) == {};
      assert FreshAt(s, t, v, top, NoRepeats, i) && Distinct(s, NamesAt(s, t, v, top, i), FieldNames(s, t, v, top, i + 1));
    }
  }

  lemma SourceIsFresh(v: Value, top: bool)
    ensures Fresh(APP, SOURCE, v, top, NoRepeats)
    ensures forall n :: n in Names(APP, SOURCE, v, top) ==> n.t == SOURCE
  {
    NoNamesFrom(APP, SOURCE, v, top, 0);
  }

  /** No article value names an object twice. */
  lemma NewsIsFresh(v: Value)
    ensures Fresh(APP, NEWS, v, true, NoRepeats)
  {
    NoNamesFrom(APP, NEWS, v, true, 1);
    var f := Supplied(APP, NEWS, v, 0, true);
    var top := SubTop(v, 0, true);
    var p := APP[NEWS].props[0];
    SourceIsFresh(f.value, top);
    assert ElemNames(APP, p, f.value, top) == Names(APP, SOURCE, f.value, top) && ElemFresh(APP, p, f.value, top, NoRepeats);
    assert NamesAt(APP, NEWS, v, true, 0) == PropNames(APP, p, f.value, top) == ElemNames(APP, p, f.value, top);
    assert FreshAt(APP, NEWS, v, true, NoRepeats, 0);
    assert FieldNames(APP, NEWS, v, true, 0) == NamesAt(APP, NEWS, v, true, 0) + FieldNames(APP, NEWS, v, true, 1);
  }

  lemma QuietWithoutNumbers(t: nat, v: Value)
    requires t < |APP|
    ensures Quiet(APP, t, v)
    decreases v
  {
    forall c | 0 <= c < |APP[t].props| && FieldOf(v, c).Given?
      ensures QuietValue(APP, APP[t].props[c], FieldOf(v, c).value)
    {
      var p := APP[t].props[c];
      var w := FieldOf(v, c).value;
      if t == NEWS && c == 0 {
        if w.Unmanaged? {
          QuietWithoutNumbers(SOURCE, w);
        }
      }
    }
  }

  /** Saving an article: `update: .all`, which the app uses, and `.modified` do the same, and
      saving it again changes nothing, under `.modified` without a single write. */
  lemma SavingArticles(x: State, v: Value)
    requires Wf(APP, x)
    ensures var p := Create(APP, x, NEWS, v, UpdateAll, None, true); var q := Create(APP, x, NEWS, v, UpdateModified, None, true);
      && p.Outcome() == q.Outcome()
      && (p.Ok? ==>
            && SameContent(p.st, q.st)
            && Create(APP, p.st, NEWS, v, UpdateModified, None, true) == p
            && SameContent(Create(APP, p.st, NEWS, v, UpdateAll, None, true).st, p.st))
  {
    NewsIsFresh(v);
    QuietWithoutNumbers(NEWS, v);
    FreshLess(APP, NEWS, v, true, NoAncestors);
    PoliciesAgree(APP, x, NEWS, v, None, None);
    if Create(APP, x, NEWS, v, UpdateAll, None, true).Ok? {
      CreateTwice(APP, x, NEWS, v, UpdateAll, None, None);
    }
  }

  /** Whatever is given for property `c` is null or of its type. */
  predicate NullOrTyped(t: nat, v: Value, c: nat)
    requires t < |APP| && c < |APP[t].props|
  {
    FieldOf(v, c).Given? ==> ScalarFits(APP[t].props[c].ty, FieldOf(v, c).value)
  }

  predicate IsSource(v: Value) {
    v.Unmanaged? && forall c :: 0 <= c < |APP[SOURCE].props| ==> NullOrTyped(SOURCE, v, c)
  }

  /** An article as the app decodes it: everything may be missing or null. */
  predicate IsArticle(v: Value) {
    && v.Unmanaged?
    && (FieldOf(v, 0).Given? ==> FieldOf(v, 0).value.Null? || IsSource(FieldOf(v, 0).value))
    && forall c :: 1 <= c < |APP[NEWS].props| ==> NullOrTyped(NEWS, v, c)
  }

  lemma ScalarAccepted(s: Schema, x: State, t: nat, v: Value, created: bool, top: bool, c: nat)
    requires t < |s| && c < |s[t].props|
    requires var p := s[t].props[c]; p.ty.nullable && !p.ty.list && p.ty.base != Object && p.dflt.Absent?
    requires FieldOf(v, c).Given? ==> ScalarFits(s[t].props[c].ty, FieldOf(v, c).value)
    ensures FieldAccepted(s, x, x, t, v, false, created, top, c)
  {
    if FieldOf(v, c).Given? {
      assert ItemAccepted(s, x, x, s[t].props[c], FieldOf(v, c).value, false, SubTop(v, c, top));
    }
  }

  lemma SourceAccepted(x: State, v: Value, top: bool)
    requires IsSource(v)
    ensures Accepts(APP, x, x, SOURCE, v, false, None, top)
  {
    var created := IsNew(APP, x, SOURCE, v, None);
    assert NullOrTyped(SOURCE, v, 1);
    forall c | 0 <= c < |APP[SOURCE].props| ensures FieldAccepted(APP, x, x, SOURCE, v, false, created, top, c) {
      assert NullOrTyped(SOURCE, v, c);
      ScalarAccepted(APP, x, SOURCE, v, created, top, c);
    }
    assert FieldsAccepted(APP, x, x, SOURCE, v, false, created, top, 0);
  }

  /** Every such article can be saved, whatever is in the database, with either policy. */
  lemma ArticlesAreSaved(x: State, v: Value, pol: Policy)
    requires Wf(APP, x) && IsArticle(v) && pol != ForceCreate
    ensures Create(APP, x, NEWS, v, pol, None, true).Ok?
  {
    var created := IsNew(APP, x, NEWS, v, None);
    assert NullOrTyped(NEWS, v, 2);
    forall c | 0 <= c < |APP[NEWS].props| ensures FieldAccepted(APP, x, x, NEWS, v, false, created, true, c) {
      if c == 0 {
        SourceFieldAccepted(x, v, created);
      } else {
        assert NullOrTyped(NEWS, v, c);
        ScalarAccepted(APP, x, NEWS, v, created, true, c);
      }
    }
    assert FieldsAccepted(APP, x, x, NEWS, v, false, created, true, 0);
    NewsIsFresh(v);
    FreshLess(APP, NEWS, v, true, RuleFor(pol));
    CreateSucceeds(APP, x, NEWS, v, pol, None);
  }

  lemma SourceFieldAccepted(x: State, v: Value, created: bool)
    requires IsArticle(v)
    ensures FieldAccepted(APP, x, x, NEWS, v, false, created, true, 0)
  {
    var f := Supplied(APP, NEWS, v, 0, true);
    var p := APP[NEWS].props[0];
    if !f.value.Null? {
      assert IsSource(NEW_SOURCE);
      SourceAccepted(x, f.value, SubTop(v, 0, true));
      assert ItemAccepted(APP, x, x, p, f.value, false, SubTop(v, 0, true));
    }
    assert ValueAccepted(APP, x, x, p, f.value, false, SubTop(v, 0, true));
  }
}
