/**
 * The taxonomy helper of inc/Taxonomy.php: it derives the singular and
 * plural display labels and the slug of a taxonomy from its name, builds the
 * table of seventeen admin labels, and merges the caller's options over the
 * computed defaults with `array_replace_recursive`.
 *
 * Translation (`__`) is taken as the identity, so a label is its template
 * with `%s` replaced by the singular or plural label.
 */
module Taxonomies {
  import opened Php
  import opened Strings

  /** The names argument: a bare taxonomy name, or an array of names keyed by role. */
  datatype Names = Bare(name: string) | Given(fields: map<string, string>)

  /** A bare name becomes an array whose only key is `name`; an array is kept as it is. */
  function Normalize(names: Names): (m: map<string, string>)
    ensures names.Bare? ==> m.Keys == {"name"} && m["name"] == names.name
    ensures names.Given? ==> m == names.fields
  {
    match names
    case Bare(n) => map["name" := n]
    case Given(fields) => fields
  }

  /** The names `setNames` fills in, in the order it visits them. */
  const Required: seq<string> := ["singular", "plural", "slug"]

  /** The `name` entry of the names; a missing entry reads as null, which the string functions treat as "". */
  function BaseName(m: map<string, string>): string
  {
    if "name" in m then m["name"] else ""
  }

  /** The name with underscores, then hyphens, turned into spaces. */
  function Spaced(name: string): string
  {
    Replace(Replace(name, '_', ' '), '-', ' ')
  }

  /** `ucwords(strtolower(...))` of the spaced name: the human-friendly label. */
  function Humanize(name: string): string
  {
    UcWords(Lower(Spaced(name)))
  }

  /** The name with spaces and underscores turned into hyphens, then lower-cased. */
  function Slugify(name: string): string
  {
    Lower(Replace(Replace(name, ' ', '-'), '_', '-'))
  }

  /** The value `setNames` stores for one of the required names. */
  function NameFor(m: map<string, string>, key: string): string
    requires key in Required
  {
    if key in m then m[key]
    else if key == "singular" then Humanize(BaseName(m))
    else if key == "plural" then Humanize(BaseName(m)) + "s"
    else Slugify(BaseName(m))
  }

  /** A name the caller supplies is stored verbatim. */
  lemma SuppliedNameKept(m: map<string, string>, key: string)
    requires key in Required && key in m
    ensures NameFor(m, key) == m[key]
  {
  }

  /** The character `str_replace` leaves at a position of the name: `_` and `-` become spaces. */
  function SpacedChar(c: char): char
  {
    if c == '_' || c == '-' then ' ' else c
  }

  /**
   * A generated singular label has one character per character of the name:
   * `_` and `-` become spaces, every letter is lower-cased, and the first
   * letter of each word is then upper-cased.
   */
  lemma GeneratedSingular(m: map<string, string>)
    requires "singular" !in m
    ensures |NameFor(m, "singular")| == |BaseName(m)|
    ensures forall i :: 0 <= i < |BaseName(m)| ==>
      NameFor(m, "singular")[i] ==
        if i == 0 || IsWordDelimiter(SpacedChar(BaseName(m)[i - 1]))
        then UpperChar(LowerChar(SpacedChar(BaseName(m)[i])))
        else LowerChar(SpacedChar(BaseName(m)[i]))
    ensures forall i :: 0 <= i < |BaseName(m)| ==> NameFor(m, "singular")[i] != '_' && NameFor(m, "singular")[i] != '-'
  {
    var name := BaseName(m);
    var sp := Spaced(name);
    var low := Lower(sp);
    var r := UcWords(low);
    assert r == NameFor(m, "singular");
    forall i | 0 <= i < |name|
      ensures r[i] == if i == 0 || IsWordDelimiter(SpacedChar(name[i - 1]))
                      then UpperChar(LowerChar(SpacedChar(name[i])))
                      else LowerChar(SpacedChar(name[i]))
      ensures r[i] != '_' && r[i] != '-'
    {
      SpacedAt(name, i);
      if i > 0 {
        SpacedAt(name, i - 1);
        assert IsWordDelimiter(low[i - 1]) == IsWordDelimiter(SpacedChar(name[i - 1]));
      }
    }
  }

  lemma SpacedAt(name: string, i: nat)
    requires i < |name|
    ensures |Spaced(name)| == |name| && Spaced(name)[i] == SpacedChar(name[i])
  {
    var once := Replace(name, '_', ' ');
    assert once[i] == if name[i] == '_' then ' ' else name[i];
  }

  /**
   * A generated plural is the name-derived label followed by `s`, whatever
   * singular label the caller supplied.
   */
  lemma GeneratedPlural(m: map<string, string>)
    requires "plural" !in m
    ensures NameFor(m, "plural") == NameFor(m - {"singular"}, "singular") + "s"
    ensures NameFor(m, "plural")[|NameFor(m, "plural")| - 1] == 's'
  {
    assert BaseName(m - {"singular"}) == BaseName(m);
  }

  /**
   * A generated slug is the lower-cased name with spaces and underscores
   * turned into `-`: it holds no space, no underscore and no upper-case letter.
   */
  lemma GeneratedSlug(m: map<string, string>)
    requires "slug" !in m
    ensures |NameFor(m, "slug")| == |BaseName(m)|
    ensures forall i :: 0 <= i < |BaseName(m)| ==>
      NameFor(m, "slug")[i] == LowerChar(if BaseName(m)[i] == ' ' || BaseName(m)[i] == '_' then '-' else BaseName(m)[i])
    ensures forall c :: c in NameFor(m, "slug") ==> c != ' ' && c != '_' && !IsUpper(c)
  {
    var name := BaseName(m);
    var dashed := Replace(Replace(name, ' ', '-'), '_', '-');
    assert forall i :: 0 <= i < |name| ==> dashed[i] == if name[i] == ' ' || name[i] == '_' then '-' else name[i];
  }

  /** The default labels, `sprintf(__(template), label)` with `__` as the identity. */
  function Labels(singular: string, plural: string): Entries
  {
    [ (Name("name"), Str(plural)),
      (Name("singular_name"), Str(singular)),
      (Name("menu_name"), Str(plural)),
      (Name("all_items"), Str("All " + plural)),
      (Name("edit_item"), Str("Edit " + singular)),
      (Name("view_item"), Str("View " + singular)),
      (Name("update_item"), Str("Update " + singular)),
      (Name("add_new_item"), Str("Add New " + singular)),
      (Name("new_item_name"), Str("New " + singular + " Name")),
      (Name("parent_item"), Str("Parent " + plural)),
      (Name("parent_item_colon"), Str("Parent " + plural + ":")),
      (Name("search_items"), Str("Search " + plural)),
      (Name("popular_items"), Str("Popular " + plural)),
      (Name("separate_items_with_commas"), Str("Seperate " + plural + " with commas")),
      (Name("add_or_remove_items"), Str("Add or remove " + plural)),
      (Name("choose_from_most_used"), Str("Choose from most used " + plural)),
      (Name("not_found"), Str("No " + plural + " found")) ]
  }

  /** Looking a label up by its key gives its template filled with the plural label. */
  lemma PluralLabels(singular: string, plural: string)
    ensures Get(Labels(singular, plural), Name("name")) == Some(Str(plural))
    ensures Get(Labels(singular, plural), Name("menu_name")) == Some(Str(plural))
    ensures Get(Labels(singular, plural), Name("all_items")) == Some(Str("All " + plural))
    ensures Get(Labels(singular, plural), Name("parent_item")) == Some(Str("Parent " + plural))
    ensures Get(Labels(singular, plural), Name("parent_item_colon")) == Some(Str("Parent " + plural + ":"))
    ensures Get(Labels(singular, plural), Name("search_items")) == Some(Str("Search " + plural))
    ensures Get(Labels(singular, plural), Name("popular_items")) == Some(Str("Popular " + plural))
    ensures Get(Labels(singular, plural), Name("separate_items_with_commas")) == Some(Str("Seperate " + plural + " with commas"))
    ensures Get(Labels(singular, plural), Name("add_or_remove_items")) == Some(Str("Add or remove " + plural))
    ensures Get(Labels(singular, plural), Name("choose_from_most_used")) == Some(Str("Choose from most used " + plural))
    ensures Get(Labels(singular, plural), Name("not_found")) == Some(Str("No " + plural + " found"))
  {
    var l := Labels(singular, plural);
    LabelsFirstMatch(singular, plural);
    assert l[0].0 == Name("name") && l[2].0 == Name("menu_name") && l[3].0 == Name("all_items");
    assert l[9].0 == Name("parent_item") && l[10].0 == Name("parent_item_colon") && l[11].0 == Name("search_items");
    assert l[12].0 == Name("popular_items") && l[13].0 == Name("separate_items_with_commas");
    assert l[14].0 == Name("add_or_remove_items") && l[15].0 == Name("choose_from_most_used") && l[16].0 == Name("not_found");
  }

  /** Looking a label up by its key gives its template filled with the singular label. */
  lemma SingularLabels(singular: string, plural: string)
    ensures Get(Labels(singular, plural), Name("singular_name")) == Some(Str(singular))
    ensures Get(Labels(singular, plural), Name("edit_item")) == Some(Str("Edit " + singular))
    ensures Get(Labels(singular, plural), Name("view_item")) == Some(Str("View " + singular))
    ensures Get(Labels(singular, plural), Name("update_item")) == Some(Str("Update " + singular))
    ensures Get(Labels(singular, plural), Name("add_new_item")) == Some(Str("Add New " + singular))
    ensures Get(Labels(singular, plural), Name("new_item_name")) == Some(Str("New " + singular + " Name"))
  {
    var l := Labels(singular, plural);
    LabelsFirstMatch(singular, plural);
    assert l[1].0 == Name("singular_name") && l[4].0 == Name("edit_item") && l[5].0 == Name("view_item");
    assert l[6].0 == Name("update_item") && l[7].0 == Name("add_new_item") && l[8].0 == Name("new_item_name");
  }

  lemma LabelsFirstMatch(singular: string, plural: string)
    ensures forall i :: 0 <= i < |Labels(singular, plural)| ==>
      Get(Labels(singular, plural), Labels(singular, plural)[i].0) == Some(Labels(singular, plural)[i].1)
  {
    var l := Labels(singular, plural);
    forall i | 0 <= i < |l| ensures Get(l, l[i].0) == Some(l[i].1) {
      GetFirstMatch(l, i);
    }
  }

  /** The default options: the labels, `hierarchical` on, and the rewrite slug. */
  function Defaults(singular: string, plural: string, slug: string): Entries
  {
    [ (Name("labels"), Arr(Labels(singular, plural))),
      (Name("hierarchical"), Bool(true)),
      (Name("rewrite"), Arr([(Name("slug"), Str(slug))])) ]
  }

  /** The caller's options merged recursively over the defaults. */
  function MergedOptions(singular: string, plural: string, slug: string, options: Entries): Entries
  {
    ReplaceRecursive(Defaults(singular, plural, slug), options)
  }

  /**
   * Where the caller's options say nothing about them, the merged options
   * keep `hierarchical = true` and `rewrite.slug` = the taxonomy's slug.
   */
  lemma MergedOptionsKeepDefaults(singular: string, plural: string, slug: string, options: Entries)
    requires WellFormed(options)
    ensures !Touches(options, [Name("hierarchical")]) ==>
      PathGet(MergedOptions(singular, plural, slug, options), [Name("hierarchical")]) == Some(Bool(true))
    ensures !Touches(options, [Name("rewrite"), Name("slug")]) ==>
      PathGet(MergedOptions(singular, plural, slug, options), [Name("rewrite"), Name("slug")]) == Some(Str(slug))
  {
    var d := Defaults(singular, plural, slug);
    GetFirstMatch(d, 1);
    GetFirstMatch(d, 2);
    if !Touches(options, [Name("hierarchical")]) {
      UntouchedDefaultSurvives(d, options, [Name("hierarchical")]);
    }
    if !Touches(options, [Name("rewrite"), Name("slug")]) {
      UntouchedDefaultSurvives(d, options, [Name("rewrite"), Name("slug")]);
      assert [Name("rewrite"), Name("slug")][1..] == [Name("slug")];
      assert PathGet(d, [Name("rewrite"), Name("slug")]) == Some(Str(slug));
    }
  }

  /** A label the caller's options leave alone is the default label. */
  lemma MergedLabel(singular: string, plural: string, slug: string, options: Entries, key: string)
    requires WellFormed(options)
    requires !Touches(options, [Name("labels"), Name(key)])
    ensures PathGet(MergedOptions(singular, plural, slug, options), [Name("labels"), Name(key)])
      == Get(Labels(singular, plural), Name(key))
  {
    UntouchedDefaultSurvives(Defaults(singular, plural, slug), options, [Name("labels"), Name(key)]);
    assert [Name("labels"), Name(key)][1..] == [Name(key)];
  }

  /** The taxonomy object: its derived names, its merged options and its text domain. */
  class Taxonomy {
    /** Declared by the class but never assigned, so it stays null. */
    var taxonomyName: Value
    var singular: string
    var plural: string
    var slug: string
    var options: Entries
    var textdomain: string

    constructor (names: Names, options: Entries)
      ensures taxonomyName == Null && textdomain == "cpt"
      ensures singular == NameFor(Normalize(names), "singular")
      ensures plural == NameFor(Normalize(names), "plural")
      ensures slug == NameFor(Normalize(names), "slug")
      ensures this.options == MergedOptions(singular, plural, slug, options)
    {
      taxonomyName := Null;
      singular, plural, slug := "", "", "";
      this.options := [];
      textdomain := "cpt";
      new;
      SetNames(names);
      SetOptions(options);
    }

    /** Fills in `singular`, `plural` and `slug`, generating each one the caller left out. */
    method SetNames(names: Names)
      modifies this`singular, this`plural, this`slug
      ensures singular == NameFor(Normalize(names), "singular")
      ensures plural == NameFor(Normalize(names), "plural")
      ensures slug == NameFor(Normalize(names), "slug")
    {
      var m := Normalize(names);
      for i := 0 to |Required|
        invariant 1 <= i ==> singular == NameFor(m, "singular")
        invariant 2 <= i ==> plural == NameFor(m, "plural")
        invariant 3 <= i ==> slug == NameFor(m, "slug")
      {
        var key := Required[i];
        var name: string;
        if key !in m {
          if key == "singular" || key == "plural" {
            name := Humanize(BaseName(m));
            if key == "plural" {
              name := name + "s";
            }
          } else {
            name := Slugify(BaseName(m));
          }
        } else {
          name := m[key];
        }
        if key == "singular" {
          singular := name;
        } else if key == "plural" {
          plural := name;
        } else {
          slug := name;
        }
      }
    }

    /** Merges the caller's options over the defaults computed from the names. */
    method SetOptions(options: Entries)
      modifies this`options
      ensures this.options == MergedOptions(singular, plural, slug, options)
    {
      var defaults := Defaults(singular, plural, slug);
      this.options := ReplaceRecursive(defaults, options);
    }

    method SetTextdomain(textdomain: string)
      modifies this`textdomain
      ensures this.textdomain == textdomain
    {
      this.textdomain := textdomain;
    }
  }
}
