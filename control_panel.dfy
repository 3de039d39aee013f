/**
 * The pure list operations of the control panel: the copy-on-write field
 * edit (`handleFieldUpdate`) and the editor's record merge that receives it,
 * the section list, the initially active section, and the fields shown for
 * a section.
 */
module ControlPanel {
  import opened Templates

  // ---------------------------------------------------------------------
  // Field edits
  // ---------------------------------------------------------------------

  /**
   * `handleFieldUpdate(fieldId, value)`: a new list in which every field
   * with id `fieldId` carries `value`; nothing is changed in place.
   */
  function HandleFieldUpdate(fields: seq<TemplateField>, fieldId: string, value: string): (r: seq<TemplateField>)
    ensures |r| == |fields|
    ensures forall i :: 0 <= i < |r| ==> r[i].id == fields[i].id
    ensures forall i :: 0 <= i < |r| && fields[i].id == fieldId ==> r[i] == fields[i].(value := value)
    ensures forall i :: 0 <= i < |r| && fields[i].id != fieldId ==> r[i] == fields[i]
    decreases |fields|
  {
    if fields == [] then []
    else
      var head := if fields[0].id == fieldId then fields[0].(value := value) else fields[0];
      [head] + HandleFieldUpdate(fields[1..], fieldId, value)
  }

  /** An id no field has leaves the list as it was. */
  lemma UpdateUnknownId(fields: seq<TemplateField>, fieldId: string, value: string)
    requires forall i :: 0 <= i < |fields| ==> fields[i].id != fieldId
    ensures HandleFieldUpdate(fields, fieldId, value) == fields
  {
  }

  /** Applying the same update twice is applying it once. */
  lemma UpdateIdempotent(fields: seq<TemplateField>, fieldId: string, value: string)
    ensures HandleFieldUpdate(HandleFieldUpdate(fields, fieldId, value), fieldId, value)
         == HandleFieldUpdate(fields, fieldId, value)
  {
  }

  /** A later update of the same field overrides an earlier one. */
  lemma UpdateLastWins(fields: seq<TemplateField>, fieldId: string, v1: string, v2: string)
    ensures HandleFieldUpdate(HandleFieldUpdate(fields, fieldId, v1), fieldId, v2)
         == HandleFieldUpdate(fields, fieldId, v2)
  {
  }

  /** Updates of different fields commute. */
  lemma UpdatesCommute(fields: seq<TemplateField>, a: string, va: string, b: string, vb: string)
    requires a != b
    ensures HandleFieldUpdate(HandleFieldUpdate(fields, a, va), b, vb)
         == HandleFieldUpdate(HandleFieldUpdate(fields, b, vb), a, va)
  {
  }

  /**
   * The editor's `{ ...templateData, ...updates }` for the `{ fields }` update
   * the panel sends; with no template loaded (`if (templateData)`) nothing happens.
   */
  function MergeFieldsUpdate(current: Option<TemplateData>, fields: seq<TemplateField>): (r: Option<TemplateData>)
    ensures r.Some? <==> current.Some?
    ensures r.Some? ==> r.value.fields == fields
    ensures r.Some? ==> r.value.id == current.value.id && r.value.name == current.value.name
    ensures r.Some? ==> r.value.description == current.value.description
    ensures r.Some? ==> r.value.htmlTemplate == current.value.htmlTemplate
  {
    if current.Some? then Some(current.value.(fields := fields)) else None
  }

  /** An edit in the panel, as the editor's state sees it. */
  function EditField(current: Option<TemplateData>, fieldId: string, value: string): (r: Option<TemplateData>)
    ensures r.Some? <==> current.Some?
    ensures r.Some? ==> r.value.id == current.value.id && r.value.name == current.value.name
    ensures r.Some? ==> r.value.description == current.value.description
    ensures r.Some? ==> r.value.htmlTemplate == current.value.htmlTemplate
    ensures r.Some? ==> |r.value.fields| == |current.value.fields|
    ensures r.Some? ==> forall i :: 0 <= i < |r.value.fields| ==>
      r.value.fields[i] == if current.value.fields[i].id == fieldId then current.value.fields[i].(value := value)
                           else current.value.fields[i]
  {
    if current.Some? then MergeFieldsUpdate(current, HandleFieldUpdate(current.value.fields, fieldId, value))
    else None
  }

  /** Edits keep field ids unique and toggle references resolvable. */
  lemma EditPreservesStructure(current: Option<TemplateData>, fieldId: string, value: string)
    requires current.Some? && UniqueFieldIds(current.value.fields) && TogglesResolve(current.value.fields)
    ensures EditField(current, fieldId, value).Some?
    ensures UniqueFieldIds(EditField(current, fieldId, value).value.fields)
    ensures TogglesResolve(EditField(current, fieldId, value).value.fields)
  {
    var fs := current.value.fields;
    var r := HandleFieldUpdate(fs, fieldId, value);
    forall i | 0 <= i < |r| && r[i].kind == Toggle
      ensures HasField(r, r[i].controlsSection.value)
    {
      var j :| 0 <= j < |fs| && fs[j].id == fs[i].controlsSection.value;
      assert r[j].id == fs[j].id;
    }
  }

  // ---------------------------------------------------------------------
  // Sections
  // ---------------------------------------------------------------------

  predicate NoDuplicates(s: seq<string>)
  {
    forall i, j :: 0 <= i < j < |s| ==> s[i] != s[j]
  }

  /** Index of the first `x` in `s`. */
  function IndexOf(s: seq<string>, x: string): (k: nat)
    requires x in s
    ensures k < |s| && s[k] == x && x !in s[..k]
    decreases |s|
  {
    if s[0] == x then 0
    else
      var k := 1 + IndexOf(s[1..], x);
      assert s[..k] == [s[0]] + s[1..][..k - 1];
      k
  }

  lemma IndexOfAppend(s: seq<string>, y: string, x: string)
    requires x in s
    ensures IndexOf(s + [y], x) == IndexOf(s, x)
  {
    var k := IndexOf(s, x);
    assert forall i :: 0 <= i < |s| ==> (s + [y])[i] == s[i];
    assert (s + [y])[..k] == s[..k];
    assert (s + [y])[..k + 1] == s[..k + 1];
  }

  lemma IndexOfLast(s: seq<string>, x: string)
    requires x !in s
    ensures IndexOf(s + [x], x) == |s|
  {
    assert forall i :: 0 <= i < |s| ==> (s + [x])[i] == s[i];
  }

  /** `Array.from(new Set(labels))`: each label once, in order of first appearance. */
  function Distinct(labels: seq<string>): (r: seq<string>)
    ensures NoDuplicates(r)
    ensures forall x :: x in r <==> x in labels
    ensures labels != [] ==> r != [] && r[0] == labels[0]
    decreases |labels|
  {
    if labels == [] then []
    else
      var d := Distinct(labels[..|labels| - 1]);
      var x := labels[|labels| - 1];
      assert forall y :: y in labels <==> y in labels[..|labels| - 1] || y == x;
      if x in d then d else d + [x]
  }

  /** `Distinct` lists labels in the order of their first appearance. */
  lemma {:induction false} DistinctFirstAppearance(labels: seq<string>)
    ensures forall i, j :: 0 <= i < j < |Distinct(labels)| ==>
      IndexOf(labels, Distinct(labels)[i]) < IndexOf(labels, Distinct(labels)[j])
    decreases |labels|
  {
    if labels != [] {
      var init, x := labels[..|labels| - 1], labels[|labels| - 1];
      assert labels == init + [x];
      var d := Distinct(init);
      DistinctFirstAppearance(init);
      forall y | y in d
        ensures IndexOf(labels, y) == IndexOf(init, y)
      {
        IndexOfAppend(init, x, y);
      }
      if x !in d {
        IndexOfLast(init, x);
        var r := d + [x];
        forall i, j | 0 <= i < j < |r|
          ensures IndexOf(labels, r[i]) < IndexOf(labels, r[j])
        {
          if j == |d| {
            assert r[i] == d[i];
          } else {
            assert r[i] == d[i] && r[j] == d[j];
          }
        }
      }
    }
  }

  /** The section label of each field, in field order. */
  function SectionLabels(fields: seq<TemplateField>): (r: seq<string>)
    ensures |r| == |fields| && forall i :: 0 <= i < |r| ==> r[i] == fields[i].section
    decreases |fields|
  {
    if fields == [] then [] else [fields[0].section] + SectionLabels(fields[1..])
  }

  /** `sections`: the distinct section labels of the fields, in order of first appearance. */
  function Sections(fields: seq<TemplateField>): (r: seq<string>)
    ensures NoDuplicates(r)
    ensures forall s :: s in r <==> exists i :: 0 <= i < |fields| && fields[i].section == s
    ensures fields != [] ==> r != [] && r[0] == fields[0].section
  {
    var labels := SectionLabels(fields);
    assert forall s :: s in labels <==> exists i :: 0 <= i < |fields| && fields[i].section == s by {
      forall s | s in labels
        ensures exists i :: 0 <= i < |fields| && fields[i].section == s
      {
        var i :| 0 <= i < |labels| && labels[i] == s;
        assert fields[i].section == s;
      }
    }
    Distinct(labels)
  }

  /** Sections appear in the order their first field appears. */
  lemma SectionsInFieldOrder(fields: seq<TemplateField>)
    ensures forall i, j :: 0 <= i < j < |Sections(fields)| ==>
      IndexOf(SectionLabels(fields), Sections(fields)[i]) < IndexOf(SectionLabels(fields), Sections(fields)[j])
  {
    DistinctFirstAppearance(SectionLabels(fields));
  }

  /**
   * `useState(sections[0] || "Content")`: the first section, unless there is
   * none or it is the empty label (falsy in JavaScript).
   */
  function InitialActiveSection(fields: seq<TemplateField>): (r: string)
    ensures fields != [] && fields[0].section != "" ==> r == fields[0].section
    ensures fields == [] || fields[0].section == "" ==> r == "Content"
  {
    var sections := Sections(fields);
    if |sections| > 0 && sections[0] != "" then sections[0] else "Content"
  }

  // ---------------------------------------------------------------------
  // Fields of a section
  // ---------------------------------------------------------------------

  /** `a` is `b` with some elements left out, the rest in order. */
  predicate Subsequence(a: seq<TemplateField>, b: seq<TemplateField>)
    decreases |b|
  {
    if a == [] then true
    else if b == [] then false
    else if a[0] == b[0] then Subsequence(a[1..], b[1..])
    else Subsequence(a, b[1..])
  }

  /**
   * `fields.filter(field => field.section === section)`: `currentSectionFields`
   * for the active section, and the body of each section's tab.
   */
  function SectionFields(fields: seq<TemplateField>, section: string): (r: seq<TemplateField>)
    ensures forall i :: 0 <= i < |r| ==> r[i].section == section
    ensures forall i :: 0 <= i < |fields| && fields[i].section == section ==> fields[i] in r
    ensures forall f :: f in r ==> f in fields
    ensures Subsequence(r, fields)
    ensures forall g :: multiset(r)[g] == if g.section == section then multiset(fields)[g] else 0
    decreases |fields|
  {
    if fields == [] then []
    else
      var rest := SectionFields(fields[1..], section);
      assert forall i :: 1 <= i < |fields| ==> fields[i] == fields[1..][i - 1];
      assert multiset(fields) == multiset{fields[0]} + multiset(fields[1..]) by {
        assert fields == [fields[0]] + fields[1..];
      }
      if fields[0].section == section then
        assert multiset([fields[0]] + rest) == multiset{fields[0]} + multiset(rest);
        [fields[0]] + rest
      else
        rest
  }

  /** The tab contents for `sections`, one tab after the other. */
  function TabFields(fields: seq<TemplateField>, sections: seq<string>): (r: seq<TemplateField>)
    ensures forall i :: 0 <= i < |r| ==> r[i] in fields && r[i].section in sections
    ensures forall i :: 0 <= i < |fields| && fields[i].section in sections ==> fields[i] in r
    decreases |sections|
  {
    if sections == [] then [] else SectionFields(fields, sections[0]) + TabFields(fields, sections[1..])
  }

  lemma {:induction false} TabFieldsCons(f: TemplateField, rest: seq<TemplateField>, sections: seq<string>)
    requires NoDuplicates(sections)
    ensures multiset(TabFields([f] + rest, sections))
         == multiset(TabFields(rest, sections)) + (if f.section in sections then multiset{f} else multiset{})
    decreases |sections|
  {
    if sections != [] {
      assert ([f] + rest)[0] == f && ([f] + rest)[1..] == rest;
      TabFieldsCons(f, rest, sections[1..]);
      assert f.section == sections[0] ==> f.section !in sections[1..];
    }
  }

  /** The tabs together show every field exactly once. */
  lemma {:induction false} TabsShowEachFieldOnce(fields: seq<TemplateField>, sections: seq<string>)
    requires NoDuplicates(sections)
    requires forall i :: 0 <= i < |fields| ==> fields[i].section in sections
    ensures multiset(TabFields(fields, sections)) == multiset(fields)
    decreases |fields|
  {
    if fields == [] {
      TabFieldsEmpty(sections);
    } else {
      TabsShowEachFieldOnce(fields[1..], sections);
      TabFieldsCons(fields[0], fields[1..], sections);
      assert [fields[0]] + fields[1..] == fields;
    }
  }

  /** Helper for `TabsShowEachFieldOnce`: no fields give empty tabs. */
  lemma {:induction false} TabFieldsEmpty(sections: seq<string>)
    ensures TabFields([], sections) == []
    decreases |sections|
  {
    if sections != [] {
      TabFieldsEmpty(sections[1..]);
    }
  }

  /** With one tab per section, every field of the template is shown exactly once. */
  lemma SectionTabsPartition(fields: seq<TemplateField>)
    ensures multiset(TabFields(fields, Sections(fields))) == multiset(fields)
  {
    TabsShowEachFieldOnce(fields, Sections(fields));
  }
}
