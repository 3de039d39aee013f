/**
 * The preview renderer (`renderedHtml`): starting from the template body,
 * each field in list order replaces every occurrence of its token by its
 * value, and finally `{{TITLE}}` is replaced by the template name.
 */
module EmailPreview {
  import opened Strings
  import opened Templates

  // ---------------------------------------------------------------------
  // Token derivation
  // ---------------------------------------------------------------------

  /** The name inside a field's token: the id upper-cased, with only its first `-` turned into `_`. */
  function TokenName(id: string): (n: string)
    ensures |n| == |id|
  {
    ReplaceFirst(Upper(id), '-', '_')
  }

  /** The token a field fills in: `{{` + token name + `}}`. */
  function Token(id: string): (t: string)
    ensures |t| == |id| + 4
  {
    Placeholder(TokenName(id))
  }

  /** The token replaced by the template name after all fields. */
  const TitleToken: string := "{{TITLE}}"

  /** The characters of a field id: lower-case ASCII letters, digits and `-`. */
  predicate IdChar(c: char)
  {
    'a' <= c <= 'z' || '0' <= c <= '9' || c == '-'
  }

  /**
   * A non-empty id of digits only: its token `{{N}}` is one that
   * `new RegExp(token, 'g')` reads as a repetition count, not as text.
   */
  predicate AllDigits(id: string)
  {
    id != [] && forall i :: 0 <= i < |id| ==> '0' <= id[i] <= '9'
  }

  /** A character that is not a digit shows an id is not all digits. */
  lemma NotAllDigitsAt(id: string, k: nat)
    requires k < |id| && !('0' <= id[k] <= '9')
    ensures !AllDigits(id)
  {
  }

  /**
   * The ids for which the literal replace models the regular-expression
   * replace: characters from `IdChar` and not all digits.
   */
  predicate PlainId(id: string)
  {
    (forall i :: 0 <= i < |id| ==> IdChar(id[i])) && !AllDigits(id)
  }

  /** Number of `-` in `s`. */
  function Hyphens(s: string): nat
    decreases |s|
  {
    if s == [] then 0 else (if s[0] == '-' then 1 else 0) + Hyphens(s[1..])
  }

  lemma UpperKeepsHyphens(s: string)
    ensures forall i :: 0 <= i < |s| ==> (Upper(s)[i] == '-' <==> s[i] == '-')
  {
  }

  /** With the first `-` at index `k`, the token name is the upper-cased id with index `k` set to `_`. */
  lemma TokenNameAt(id: string, k: nat)
    requires k < |id| && id[k] == '-' && '-' !in id[..k]
    ensures TokenName(id) == Upper(id)[k := '_']
    ensures forall i :: 0 <= i < |id| ==>
      TokenName(id)[i] == if i == k then '_' else UpperChar(id[i])
  {
    var u := Upper(id);
    UpperKeepsHyphens(id);
    assert '-' !in u[..k] by {
      forall i | 0 <= i < k
        ensures u[..k][i] != '-'
      {
        assert id[..k][i] == id[i];
      }
    }
    ReplaceFirstAt(u, '-', '_', k);
  }

  /** An id without `-` is only upper-cased. */
  lemma TokenNoHyphen(id: string)
    requires '-' !in id
    ensures Token(id) == Placeholder(Upper(id))
  {
    UpperKeepsHyphens(id);
    assert '-' !in Upper(id);
  }

  lemma {:induction false} HyphensPointwise(s: string, u: string)
    requires |s| == |u|
    requires forall i :: 0 <= i < |s| ==> (u[i] == '-' <==> s[i] == '-')
    ensures Hyphens(u) == Hyphens(s)
    decreases |s|
  {
    if s != [] {
      HyphensPointwise(s[1..], u[1..]);
    }
  }

  lemma {:induction false} HyphensUpdate(s: string, k: nat, d: char)
    requires k < |s| && s[k] == '-' && d != '-'
    ensures Hyphens(s[k := d]) == Hyphens(s) - 1
    decreases |s|
  {
    if k > 0 {
      HyphensUpdate(s[1..], k - 1, d);
      assert s[k := d][1..] == s[1..][k - 1 := d];
    } else {
      assert s[k := d][1..] == s[1..];
    }
  }

  lemma HyphensZero(s: string)
    ensures Hyphens(s) == 0 <==> '-' !in s
  {
  }

  /** An id with `h >= 1` hyphens keeps `h - 1` of them in its token name. */
  lemma TokenKeepsLaterHyphens(id: string)
    ensures Hyphens(TokenName(id)) == if Hyphens(id) == 0 then 0 else Hyphens(id) - 1
  {
    UpperKeepsHyphens(id);
    HyphensPointwise(id, Upper(id));
    HyphensZero(id);
    if '-' in id {
      var k := FirstIndex(id, '-');
      TokenNameAt(id, k);
      HyphensUpdate(Upper(id), k, '_');
    } else {
      assert '-' !in Upper(id);
    }
  }

  /** The token name of a plain id is brace-free and does not start with `#` or `/`. */
  lemma TokenNameShape(id: string)
    requires PlainId(id)
    ensures BraceFree(TokenName(id))
    ensures forall i :: 0 <= i < |id| ==> TokenName(id)[i] !in {'{', '}', '#', '/'}
  {
    var n := TokenName(id);
    forall i | 0 <= i < |id|
      ensures n[i] !in {'{', '}', '#', '/'}
    {
      assert IdChar(id[i]);
    }
  }

  /** No token of a plain id starts with `{{#` or `{{/`, so none is a block marker. */
  lemma TokenNotMarker(id: string)
    requires PlainId(id)
    ensures Token(id)[..2] == "{{" && Token(id)[2] != '#' && Token(id)[2] != '/'
  {
    TokenNameShape(id);
    if id != [] {
      assert Token(id)[2] == TokenName(id)[0];
    }
  }

  /** Recovers the id from a token name: lower-case, first `_` back to `-`. */
  function IdOfTokenName(n: string): string
  {
    ReplaceFirst(Lower(n), '_', '-')
  }

  /** For plain ids the token name determines the id. */
  lemma TokenNameInverse(id: string)
    requires PlainId(id)
    ensures IdOfTokenName(TokenName(id)) == id
  {
    var n := TokenName(id);
    assert '_' !in id by {
      forall i | 0 <= i < |id|
        ensures id[i] != '_'
      {
        assert IdChar(id[i]);
      }
    }
    if '-' in id {
      var k := FirstIndex(id, '-');
      TokenNameAt(id, k);
      var l := Lower(n);
      assert l == id[k := '_'] by {
        forall i | 0 <= i < |id|
          ensures l[i] == id[k := '_'][i]
        {
          assert IdChar(id[i]);
        }
      }
      assert '_' !in l[..k] by {
        forall i | 0 <= i < k
          ensures l[..k][i] != '_'
        {
          assert l[i] == id[i];
        }
      }
      ReplaceFirstAt(l, '_', '-', k);
      assert l[k := '-'] == id;
    } else {
      UpperKeepsHyphens(id);
      assert n == Upper(id);
      var l := Lower(n);
      assert l == id by {
        forall i | 0 <= i < |id|
          ensures l[i] == id[i]
        {
          assert IdChar(id[i]);
        }
      }
    }
  }

  /** Distinct plain ids derive distinct tokens. */
  lemma TokenInjective(a: string, b: string)
    requires PlainId(a) && PlainId(b) && Token(a) == Token(b)
    ensures a == b
  {
    assert TokenName(a) == Token(a)[2..|Token(a)| - 2];
    assert TokenName(b) == Token(b)[2..|Token(b)| - 2];
    TokenNameInverse(a);
    TokenNameInverse(b);
  }

  // ---------------------------------------------------------------------
  // Rendering
  // ---------------------------------------------------------------------

  /** One field step: every occurrence of the field's token becomes its value. */
  function Substitute(html: string, f: TemplateField): (r: string)
    ensures r == Join(SplitOn(html, Token(f.id)), f.value)
  {
    ReplaceAll(html, Token(f.id), f.value)
  }

  /** The body after the field steps for `fields`, applied in list order. */
  function ApplyFields(html: string, fields: seq<TemplateField>): (r: string)
    ensures (forall i :: 0 <= i < |fields| ==> !Occurs(html, Token(fields[i].id))) ==> r == html
    ensures (forall i :: 0 <= i < |fields| ==> fields[i].value == Token(fields[i].id)) ==> r == html
    decreases |fields|
  {
    if fields == [] then html
    else
      var prev := ApplyFields(html, fields[..|fields| - 1]);
      var f := fields[|fields| - 1];
      if prev == html && !Occurs(html, Token(f.id)) then
        ReplaceAllAbsent(html, Token(f.id), f.value);
        Substitute(prev, f)
      else if f.value == Token(f.id) then
        ReplaceAllSelf(prev, Token(f.id));
        Substitute(prev, f)
      else
        Substitute(prev, f)
  }

  /** The rendered preview: all field steps, then the title step. */
  function Render(t: TemplateData): (r: string)
    ensures !Occurs(t.htmlTemplate, TitleToken) && (forall i :: 0 <= i < |t.fields| ==> !Occurs(t.htmlTemplate, Token(t.fields[i].id)))
      ==> r == t.htmlTemplate
  {
    var fieldsDone := ApplyFields(t.htmlTemplate, t.fields);
    if fieldsDone == t.htmlTemplate && !Occurs(t.htmlTemplate, TitleToken) then
      ReplaceAllAbsent(t.htmlTemplate, TitleToken, t.name);
      ReplaceAll(fieldsDone, TitleToken, t.name)
    else
      ReplaceAll(fieldsDone, TitleToken, t.name)
  }

  /** `renderedHtml`: the field loop and the final title replacement. */
  method RenderedHtml(t: TemplateData) returns (html: string)
    ensures html == Render(t)
  {
    html := t.htmlTemplate;
    var i := 0;
    while i < |t.fields|
      invariant 0 <= i <= |t.fields|
      invariant html == ApplyFields(t.htmlTemplate, t.fields[..i])
    {
      var field := t.fields[i];
      var token := "{{" + ReplaceFirst(Upper(field.id), '-', '_') + "}}";
      html := ReplaceAll(html, token, field.value);
      assert t.fields[..i + 1][..i] == t.fields[..i];
      i := i + 1;
    }
    assert t.fields[..i] == t.fields;
    html := ReplaceAll(html, TitleToken, t.name);
  }

  // ---------------------------------------------------------------------
  // Properties of one field step
  // ---------------------------------------------------------------------

  /** A step is the current text split at the token's occurrences and re-joined with the value. */
  lemma SubstituteSplitJoin(html: string, f: TemplateField)
    ensures Substitute(html, f) == Join(SplitOn(html, Token(f.id)), f.value)
    ensures Join(SplitOn(html, Token(f.id)), Token(f.id)) == html
    ensures forall i :: 0 <= i < |SplitOn(html, Token(f.id))| ==> !Occurs(SplitOn(html, Token(f.id))[i], Token(f.id))
    ensures |SplitOn(html, Token(f.id))| == Count(html, Token(f.id)) + 1
  {
    SplitJoin(html, Token(f.id));
    SplitPiecesFree(html, Token(f.id));
    SplitCount(html, Token(f.id));
  }

  /** The value is inserted, not rescanned: text that is just the token becomes the value, whatever it holds. */
  lemma SubstituteNotRescanned(f: TemplateField)
    ensures Substitute(Token(f.id), f) == f.value
  {
    ReplaceAllWhole(Token(f.id), f.value);
  }

  /** A step whose token does not occur changes nothing. */
  lemma SubstituteAbsent(html: string, f: TemplateField)
    requires !Occurs(html, Token(f.id))
    ensures Substitute(html, f) == html
  {
    ReplaceAllAbsent(html, Token(f.id), f.value);
  }

  /** A field whose value is its own token changes nothing. */
  lemma SubstituteSelf(html: string, f: TemplateField)
    requires f.value == Token(f.id)
    ensures Substitute(html, f) == html
  {
    ReplaceAllSelf(html, Token(f.id));
  }

  /** Each of the `n` occurrences changes the length by `|value| - |token|`. */
  lemma SubstituteLength(html: string, f: TemplateField)
    ensures |Substitute(html, f)| == |html| + Count(html, Token(f.id)) * (|f.value| - |Token(f.id)|)
  {
    ReplaceAllLength(html, Token(f.id), f.value);
  }

  /** Appending a field whose token no longer occurs leaves the running text as it is. */
  lemma ApplyFieldsAbsent(html: string, fields: seq<TemplateField>, f: TemplateField)
    requires !Occurs(ApplyFields(html, fields), Token(f.id))
    ensures ApplyFields(html, fields + [f]) == ApplyFields(html, fields)
  {
    assert (fields + [f])[..|fields|] == fields;
    SubstituteAbsent(ApplyFields(html, fields), f);
  }

  // ---------------------------------------------------------------------
  // Properties of a whole render
  // ---------------------------------------------------------------------

  /** With no fields and no `{{TITLE}}` in the body, the preview is the body. */
  lemma RenderBodyOnly(t: TemplateData)
    requires t.fields == [] && !Occurs(t.htmlTemplate, TitleToken)
    ensures Render(t) == t.htmlTemplate
  {
    ReplaceAllAbsent(t.htmlTemplate, TitleToken, t.name);
  }

  /** A `{{TITLE}}` that a field value brings in is replaced by the name too. */
  lemma TitleInValueReplaced(t: TemplateData, f: TemplateField)
    requires t.htmlTemplate == Token(f.id) && t.fields == [f] && f.value == TitleToken
    ensures Render(t) == t.name
  {
    SubstituteNotRescanned(f);
    assert ApplyFields(t.htmlTemplate, t.fields) == TitleToken by {
      assert t.fields[..0] == [];
    }
    ReplaceAllWhole(TitleToken, t.name);
  }

  /** `{{TITLE}}` is the token the plain id `title` would derive. */
  lemma TitleIsToken()
    ensures PlainId("title") && Token("title") == TitleToken
  {
    NotAllDigitsAt("title", 0);
    TokenNoHyphen("title");
  }

  /** The text of another placeholder does not contain a plain id's token. */
  lemma TokenNotInOtherToken(x: string, y: string)
    requires PlainId(x) && PlainId(y) && x != y
    ensures !Occurs(Token(x), Token(y))
  {
    TokenNameShape(x);
    TokenNameShape(y);
    if Occurs(Token(x), Token(y)) {
      PlaceholderInPlaceholder(TokenName(x), TokenName(y));
      TokenNameInverse(x);
      TokenNameInverse(y);
    }
  }

  lemma ApplyTwo(body: string, f: TemplateField, g: TemplateField)
    ensures ApplyFields(body, [f, g]) == Substitute(Substitute(body, f), g)
  {
    assert [f, g][..1] == [f] && [f][..0] == [];
    assert ApplyFields(body, [f]) == Substitute(ApplyFields(body, []), f);
  }

  /**
   * Fields apply in list order: when the body is `f`'s token and `f`'s value
   * is `g`'s token, `g` listed after `f` fills in what `f` inserted.
   */
  lemma LaterFieldFillsEarlierValue(body: string, name: string, f: TemplateField, g: TemplateField)
    requires body == Token(f.id) && f.value == Token(g.id) && !Occurs(g.value, TitleToken)
    ensures Render(TemplateData("", name, "", [f, g], body)) == g.value
  {
    ApplyTwo(body, f, g);
    SubstituteNotRescanned(f);
    SubstituteNotRescanned(g);
    ReplaceAllAbsent(g.value, TitleToken, name);
  }

  /** ... while `g` listed before `f` does not: `f`'s value then stays as inserted. */
  lemma EarlierFieldMissesLaterValue(body: string, name: string, f: TemplateField, g: TemplateField)
    requires PlainId(f.id) && PlainId(g.id) && f.id != g.id && g.id != "title"
    requires body == Token(f.id) && f.value == Token(g.id)
    ensures Render(TemplateData("", name, "", [g, f], body)) == Token(g.id)
  {
    ApplyTwo(body, g, f);
    TokenNotInOtherToken(f.id, g.id);
    SubstituteAbsent(body, g);
    SubstituteNotRescanned(f);
    TitleIsToken();
    TokenNotInOtherToken(g.id, "title");
    ReplaceAllAbsent(Token(g.id), TitleToken, name);
  }

  /** A block marker `{{#x}}` or `{{/x}}` is never overlapped by a plain id's token. */
  lemma MarkerUntouched(s: string, id: string, x: string)
    requires PlainId(id)
    requires |x| >= 1 && (x[0] == '#' || x[0] == '/') && BraceFree(x)
    ensures forall j, k :: OccursAt(s, Token(id), j) && OccursAt(s, Placeholder(x), k) ==>
      j + |Token(id)| <= k || k + |Placeholder(x)| <= j
  {
    TokenNameShape(id);
    forall j, k | OccursAt(s, Token(id), j) && OccursAt(s, Placeholder(x), k)
      ensures j + |Token(id)| <= k || k + |Placeholder(x)| <= j
    {
      PlaceholderMarkerDisjoint(s, TokenName(id), x, j, k);
    }
  }

  lemma {:induction false} ApplyFieldsKeepsMarker(html: string, fields: seq<TemplateField>, x: string)
    requires forall i :: 0 <= i < |fields| ==> PlainId(fields[i].id)
    requires |x| >= 1 && (x[0] == '#' || x[0] == '/') && BraceFree(x)
    requires Occurs(html, Placeholder(x))
    ensures Occurs(ApplyFields(html, fields), Placeholder(x))
    decreases |fields|
  {
    if fields != [] {
      var init, f := fields[..|fields| - 1], fields[|fields| - 1];
      ApplyFieldsKeepsMarker(html, init, x);
      var s := ApplyFields(html, init);
      MarkerUntouched(s, f.id, x);
      ReplaceAllKeepsOccurs(s, Token(f.id), f.value, Placeholder(x));
    }
  }

  /**
   * Block markers `{{#x}}` / `{{/x}}` in the body survive rendering: no block
   * is resolved, and no token of a plain id or `{{TITLE}}` overlaps them.
   */
  lemma RenderKeepsMarker(t: TemplateData, x: string)
    requires forall i :: 0 <= i < |t.fields| ==> PlainId(t.fields[i].id)
    requires |x| >= 1 && (x[0] == '#' || x[0] == '/') && BraceFree(x)
    requires Occurs(t.htmlTemplate, Placeholder(x))
    ensures Occurs(Render(t), Placeholder(x))
  {
    ApplyFieldsKeepsMarker(t.htmlTemplate, t.fields, x);
    var s := ApplyFields(t.htmlTemplate, t.fields);
    TitleIsToken();
    MarkerUntouched(s, "title", x);
    ReplaceAllKeepsOccurs(s, TitleToken, t.name, Placeholder(x));
  }
}
