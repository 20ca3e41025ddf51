/**
 * The post-type helper of cpt.php: option defaulting when a post type is
 * created, taxonomy registration with its reserved-slug check and the
 * process-wide registry of taxonomies per post type, the query-argument
 * builders behind `get_posts` and its variants, the `get_posts_by_<taxonomy>`
 * dispatcher, the query order, and the meta-box list.
 *
 * The host framework is not modelled: `sanitize_title` is a function the
 * caller supplies, a query is represented by the arguments it was built
 * from, and registering a meta box with the host is represented by the call
 * that would be made.
 */
module PostTypes {
  import opened Php
  import opened Strings

  /** Taxonomy slugs the host reserves. */
  const ProtectedTaxonomies: seq<string> := ["month", "year", "category", "tag"]

  const DefaultSupports: seq<Value> := [Str("editor"), Str("title"), Str("thumbnail"), Str("excerpt")]

  const DefaultMenuIcon: string := "dashicons-format-aside"

  const GetPostsByPrefix: string := "get_posts_by_"

  /**
   * The `has_archive` block of the constructor exists in two versions that
   * were never reconciled; the model takes the version as a parameter.
   */
  datatype ArchiveBranch = Head | Master

  /** The names recorded for a registered taxonomy. */
  datatype TaxonomyNames = TaxonomyNames(name: string, singular: string, plural: string)

  datatype MetaBox = MetaBox(title: string, callback: Value, context: string, priority: string)

  /** The arguments of one host `add_meta_box` call. */
  datatype MetaBoxCall = MetaBoxCall(id: string, title: string, callback: Value, screen: string, context: string, priority: string)

  datatype Error = ReservedTaxonomy(name: string) | MethodNotFound(func: string)

  // ------------------------------------------------------ option defaulting

  /** A post type is public unless `public` is set to a falsy value. */
  predicate IsPublic(options: Entries)
  {
    !Isset(options, "public") || Truthy(Get(options, Name("public")).value)
  }

  /** The condition under which the constructor handles `has_archive`. */
  predicate OpensArchive(options: Entries)
  {
    || (!Isset(options, "has_archive") && IsPublic(options))
    || (Isset(options, "has-options") && Truthy(Get(options, Name("has-options")).value))
  }

  /** The `has_archive` option after defaulting, for each version of the block. */
  function ArchiveOption(options: Entries, plural: string, branch: ArchiveBranch, sanitize: string -> string): Option<Value>
  {
    var given := Get(options, Name("has_archive"));
    var archiveSlug := Some(Str(sanitize(plural)));
    if !OpensArchive(options) then given
    else
      match branch
      case Master =>
        if !Isset(options, "has_archive") || Truthy(given.value) then archiveSlug else given
      case Head =>
        if Isset(options, "has_archive") && Truthy(given.value) && !given.value.Str? then archiveSlug else given
  }

  /** The option keys the constructor may change. */
  const ManagedKeys: set<Key> :=
    {Name("supports"), Name("menu_icon"), Name("show_in_rest"), Name("show_ui"), Name("show_in_nav_menus"), Name("has_archive")}

  /** `supports` and `menu_icon` come from the arguments, or their defaults when empty. */
  predicate FeaturesDefaulted(after: Entries, icon: Value, supports: Value)
  {
    && Get(after, Name("supports")) == Some(if Empty(supports) then Arr(ListOf(DefaultSupports)) else supports)
    && Get(after, Name("menu_icon")) == Some(if Empty(icon) then Str(DefaultMenuIcon) else icon)
  }

  /** The visibility flags and `show_in_rest` are defaulted only where the caller left them unset. */
  predicate VisibilityDefaulted(before: Entries, after: Entries)
  {
    && Get(after, Name("show_in_rest")) ==
         (if Isset(before, "show_in_rest") then Get(before, Name("show_in_rest")) else Some(Bool(true)))
    && Get(after, Name("show_ui")) ==
         (if !IsPublic(before) && !Isset(before, "show_ui") then Some(Bool(true)) else Get(before, Name("show_ui")))
    && Get(after, Name("show_in_nav_menus")) ==
         (if !IsPublic(before) && !Isset(before, "show_in_nav_menus") then Some(Bool(true))
          else Get(before, Name("show_in_nav_menus")))
  }

  /** Every option the constructor does not manage is the caller's. */
  ghost predicate OthersKept(before: Entries, after: Entries)
  {
    forall k :: k !in ManagedKeys ==> Get(after, k) == Get(before, k)
  }

  /**
   * `after` is `before` with the post-type defaults filled in: the
   * visibility flags and `show_in_rest` only where the caller left them
   * unset, `supports` and `menu_icon` from the arguments or their defaults,
   * `has_archive` as the chosen version of the block sets it, and every
   * other option untouched.
   */
  ghost predicate OptionsDefaulted(before: Entries, after: Entries, plural: string, icon: Value, supports: Value,
                             branch: ArchiveBranch, sanitize: string -> string)
  {
    && FeaturesDefaulted(after, icon, supports)
    && VisibilityDefaulted(before, after)
    && Get(after, Name("has_archive")) == ArchiveOption(before, plural, branch, sanitize)
    && OthersKept(before, after)
  }

  /** The `has_archive` block of the constructor. */
  method DefaultArchive(options: Entries, plural: string, branch: ArchiveBranch, sanitize: string -> string)
    returns (opts: Entries)
    ensures Get(opts, Name("has_archive")) == ArchiveOption(options, plural, branch, sanitize)
    ensures forall k :: k != Name("has_archive") ==> Get(opts, k) == Get(options, k)
  {
    opts := options;
    var isPublic := !Isset(opts, "public") || Truthy(Get(opts, Name("public")).value);
    if (!Isset(opts, "has_archive") && isPublic) || (Isset(opts, "has-options") && Truthy(Get(opts, Name("has-options")).value)) {
      var hasArchive: Value;
      if Isset(opts, "has_archive") {
        hasArchive := Get(opts, Name("has_archive")).value;
      } else {
        hasArchive := if branch == Head then Bool(false) else Bool(true);
      }
      if Truthy(hasArchive) {
        opts := Set(opts, Name("has_archive"), Str(sanitize(plural)));
      }
      if branch == Head && hasArchive.Str? {
        opts := Set(opts, Name("has_archive"), hasArchive);
      }
    }
  }

  /** A private post type gets an admin screen and menu entries unless the caller decided otherwise. */
  method DefaultVisibility(options: Entries, isPublic: bool) returns (opts: Entries)
    ensures Get(opts, Name("show_ui")) ==
      if !isPublic && !Isset(options, "show_ui") then Some(Bool(true)) else Get(options, Name("show_ui"))
    ensures Get(opts, Name("show_in_nav_menus")) ==
      if !isPublic && !Isset(options, "show_in_nav_menus") then Some(Bool(true)) else Get(options, Name("show_in_nav_menus"))
    ensures forall k :: k != Name("show_ui") && k != Name("show_in_nav_menus") ==> Get(opts, k) == Get(options, k)
  {
    opts := options;
    if !isPublic && !Isset(opts, "show_ui") {
      opts := Set(opts, Name("show_ui"), Bool(true));
    }
    if !isPublic && !Isset(opts, "show_in_nav_menus") {
      opts := Set(opts, Name("show_in_nav_menus"), Bool(true));
    }
  }

  /** The option defaulting the constructor performs, step by step. */
  method PrepareOptions(plural: string, icon: Value, supports: Value, options: Entries,
                        branch: ArchiveBranch, sanitize: string -> string)
    returns (opts: Entries)
    ensures OptionsDefaulted(options, opts, plural, icon, supports, branch, sanitize)
  {
    var isPublic := !Isset(options, "public") || Truthy(Get(options, Name("public")).value);
    var archived := DefaultArchive(options, plural, branch, sanitize);
    var visible := DefaultVisibility(archived, isPublic);
    var supportsValue := supports;
    if Empty(supports) {
      supportsValue := Arr(ListOf(DefaultSupports));
    }
    var withSupports := Set(visible, Name("supports"), supportsValue);
    var withIcon := Set(withSupports, Name("menu_icon"), if Empty(icon) then Str(DefaultMenuIcon) else icon);
    opts := withIcon;
    if !Isset(opts, "show_in_rest") {
      opts := Set(opts, Name("show_in_rest"), Bool(true));
    }
    assert FeaturesDefaulted(opts, icon, supports);
    assert VisibilityDefaulted(options, opts);
    assert OthersKept(options, opts);
  }

  // ------------------------------------------------------------- taxonomies

  predicate IsReserved(slug: string)
  {
    slug in ProtectedTaxonomies
  }

  /** The slug the reserved-word check should test: the caller's `slug` option, else the sanitised name. */
  function CheckedSlug(singular: string, options: Entries, sanitize: string -> string): string
  {
    if Isset(options, "slug") then sanitize(ToStr(Get(options, Name("slug")).value)) else sanitize(singular)
  }

  /** The names recorded for an accepted taxonomy; the default plural is the sanitised name plus `s`. */
  function NamesFor(singular: string, plural: Option<string>, sanitize: string -> string): TaxonomyNames
  {
    var name := sanitize(singular);
    TaxonomyNames(name, singular, if plural.None? then name + "s" else plural.value)
  }

  /**
   * The outcome of `taxonomy()` as the code is written: the option array is
   * looked up under a misspelt name, so the slug checked is always the
   * sanitised name, whatever the options say.
   */
  function RegisterTaxonomyAsWritten(singular: string, plural: Option<string>, options: Entries,
                                     sanitize: string -> string): (r: Result<TaxonomyNames, Error>)
    ensures r.Failure? <==> IsReserved(sanitize(singular))
    ensures r.Success? ==> r.value == NamesFor(singular, plural, sanitize)
  {
    var name := sanitize(singular);
    var slug := name;
    if IsReserved(slug) then Failure(ReservedTaxonomy(name)) else Success(NamesFor(singular, plural, sanitize))
  }

  /**
   * The outcome of `taxonomy()` with the check reading the caller's
   * options: it fails exactly when the slug checked is reserved, and
   * otherwise yields the names to record.
   */
  function RegisterTaxonomy(singular: string, plural: Option<string>, options: Entries,
                            sanitize: string -> string): (r: Result<TaxonomyNames, Error>)
    ensures r.Failure? <==> IsReserved(CheckedSlug(singular, options, sanitize))
    ensures r.Failure? ==> r.error == ReservedTaxonomy(sanitize(singular))
    ensures r.Success? ==> r.value == NamesFor(singular, plural, sanitize)
  {
    var name := sanitize(singular);
    if IsReserved(CheckedSlug(singular, options, sanitize)) then Failure(ReservedTaxonomy(name))
    else Success(NamesFor(singular, plural, sanitize))
  }

  /** As written, the options never influence the outcome; the two versions agree when no slug option is set. */
  lemma AsWrittenIgnoresOptions(singular: string, plural: Option<string>, options: Entries, sanitize: string -> string)
    ensures RegisterTaxonomyAsWritten(singular, plural, options, sanitize) == RegisterTaxonomyAsWritten(singular, plural, [], sanitize)
    ensures !Isset(options, "slug") ==>
      RegisterTaxonomyAsWritten(singular, plural, options, sanitize) == RegisterTaxonomy(singular, plural, options, sanitize)
  {
  }

  /** A reserved `slug` option slips through the check as written, and is caught once the check reads it. */
  lemma ReservedSlugOptionSlipsThrough()
    ensures RegisterTaxonomyAsWritten("genre", None, [(Name("slug"), Str("tag"))], s => s).Success?
    ensures RegisterTaxonomy("genre", None, [(Name("slug"), Str("tag"))], s => s).Failure?
  {
    var options := [(Name("slug"), Str("tag"))];
    assert Get(options, Name("slug")) == Some(Str("tag"));
    assert "genre" !in ProtectedTaxonomies;
  }

  /** The static registry: for every post type, the taxonomies registered against it, in order. */
  class Registry {
    var lists: map<string, seq<TaxonomyNames>>

    constructor ()
      ensures lists == map[]
    {
      lists := map[];
    }

    function ListFor(postType: string): seq<TaxonomyNames>
      reads this
    {
      if postType in lists then lists[postType] else []
    }

    /** Appends the names to the list of the given post type, creating the list when it is missing. */
    method Record(postType: string, names: TaxonomyNames)
      modifies this
      ensures lists == old(lists)[postType := old(ListFor(postType)) + [names]]
      ensures ListFor(postType) == old(ListFor(postType)) + [names]
      ensures forall p :: p != postType ==> ListFor(p) == old(ListFor(p))
    {
      lists := lists[postType := ListFor(postType) + [names]];
    }
  }

  // ---------------------------------------------------------- query arguments

  /** The value a key ends with when `custom` may override `fallback`. */
  function Overridden(custom: Entries, key: string, fallback: Option<Value>): Option<Value>
  {
    if Name(key) in Keys(custom) then Get(custom, Name(key)) else fallback
  }

  /** The keys `get_posts` computes itself. */
  const QueryKeys: set<string> :=
    {"post_type", "no_found_rows", "orderby", "order", "update_post_meta_cache", "posts_per_page"}

  /** The arguments every query starts from, assigned in the order of the source's array literal. */
  function BaseArgs(postType: string, orderby: string, order: string): Entries
  {
    var a0 := Set([], Name("post_type"), Str(postType));
    var a1 := Set(a0, Name("no_found_rows"), Bool(true));
    var a2 := Set(a1, Name("orderby"), Str(orderby));
    Set(a2, Name("order"), Str(order))
  }

  /** The base arguments with the meta cache switched off unless both `meta_key` and `tax_query` are given. */
  function CachedArgs(postType: string, orderby: string, order: string, custom: Entries): Entries
  {
    var a0 := BaseArgs(postType, orderby, order);
    var a1 := if !Isset(custom, "meta_key") then Set(a0, Name("update_post_meta_cache"), Bool(false)) else a0;
    if !Isset(custom, "tax_query") then Set(a1, Name("update_post_meta_cache"), Bool(false)) else a1
  }

  /** The arguments `get_posts` computes before the custom arguments are merged in. */
  function OwnArgs(postType: string, orderby: string, order: string, limit: int, custom: Entries): Entries
  {
    var a := CachedArgs(postType, orderby, order, custom);
    if limit != 0 && !Isset(a, "posts_per_page") then Set(a, Name("posts_per_page"), Int(limit)) else a
  }

  /** The arguments `get_posts` hands to the query for a limit and custom arguments. */
  function QueryArgs(postType: string, orderby: string, order: string, limit: int, custom: Entries): Entries
  {
    ArrayMerge(OwnArgs(postType, orderby, order, limit, custom), custom)
  }

  lemma BaseArgsShape(postType: string, orderby: string, order: string)
    ensures DistinctKeys(BaseArgs(postType, orderby, order))
    ensures Get(BaseArgs(postType, orderby, order), Name("post_type")) == Some(Str(postType))
    ensures Get(BaseArgs(postType, orderby, order), Name("no_found_rows")) == Some(Bool(true))
    ensures Get(BaseArgs(postType, orderby, order), Name("orderby")) == Some(Str(orderby))
    ensures Get(BaseArgs(postType, orderby, order), Name("order")) == Some(Str(order))
    ensures forall n :: n !in QueryKeys ==> Get(BaseArgs(postType, orderby, order), Name(n)) == None
    ensures Get(BaseArgs(postType, orderby, order), Name("update_post_meta_cache")) == None
    ensures Get(BaseArgs(postType, orderby, order), Name("posts_per_page")) == None
  {
    var a0 := Set([], Name("post_type"), Str(postType));
    SetKeepsDistinct([], Name("post_type"), Str(postType));
    var a1 := Set(a0, Name("no_found_rows"), Bool(true));
    SetKeepsDistinct(a0, Name("no_found_rows"), Bool(true));
    var a2 := Set(a1, Name("orderby"), Str(orderby));
    SetKeepsDistinct(a1, Name("orderby"), Str(orderby));
    SetKeepsDistinct(a2, Name("order"), Str(order));
  }

  lemma CachedArgsShape(postType: string, orderby: string, order: string, custom: Entries)
    ensures DistinctKeys(CachedArgs(postType, orderby, order, custom))
    ensures Get(CachedArgs(postType, orderby, order, custom), Name("post_type")) == Some(Str(postType))
    ensures Get(CachedArgs(postType, orderby, order, custom), Name("no_found_rows")) == Some(Bool(true))
    ensures Get(CachedArgs(postType, orderby, order, custom), Name("orderby")) == Some(Str(orderby))
    ensures Get(CachedArgs(postType, orderby, order, custom), Name("order")) == Some(Str(order))
    ensures Get(CachedArgs(postType, orderby, order, custom), Name("update_post_meta_cache"))
      == if Isset(custom, "meta_key") && Isset(custom, "tax_query") then None else Some(Bool(false))
    ensures forall n :: n !in QueryKeys ==> Get(CachedArgs(postType, orderby, order, custom), Name(n)) == None
    ensures Get(CachedArgs(postType, orderby, order, custom), Name("posts_per_page")) == None
  {
    var a0 := BaseArgs(postType, orderby, order);
    BaseArgsShape(postType, orderby, order);
    var a1 := if !Isset(custom, "meta_key") then Set(a0, Name("update_post_meta_cache"), Bool(false)) else a0;
    if !Isset(custom, "meta_key") {
      SetKeepsDistinct(a0, Name("update_post_meta_cache"), Bool(false));
    }
    if !Isset(custom, "tax_query") {
      SetKeepsDistinct(a1, Name("update_post_meta_cache"), Bool(false));
    }
  }

  /** What `get_posts` itself puts into the arguments. */
  lemma OwnArgsShape(postType: string, orderby: string, order: string, limit: int, custom: Entries)
    ensures DistinctKeys(OwnArgs(postType, orderby, order, limit, custom))
    ensures Get(OwnArgs(postType, orderby, order, limit, custom), Name("post_type")) == Some(Str(postType))
    ensures Get(OwnArgs(postType, orderby, order, limit, custom), Name("no_found_rows")) == Some(Bool(true))
    ensures Get(OwnArgs(postType, orderby, order, limit, custom), Name("orderby")) == Some(Str(orderby))
    ensures Get(OwnArgs(postType, orderby, order, limit, custom), Name("order")) == Some(Str(order))
    ensures Get(OwnArgs(postType, orderby, order, limit, custom), Name("update_post_meta_cache"))
      == if Isset(custom, "meta_key") && Isset(custom, "tax_query") then None else Some(Bool(false))
    ensures Get(OwnArgs(postType, orderby, order, limit, custom), Name("posts_per_page"))
      == if limit != 0 then Some(Int(limit)) else None
    ensures forall n :: n !in QueryKeys ==> Get(OwnArgs(postType, orderby, order, limit, custom), Name(n)) == None
  {
    var a := CachedArgs(postType, orderby, order, custom);
    CachedArgsShape(postType, orderby, order, custom);
    if limit != 0 {
      SetKeepsDistinct(a, Name("posts_per_page"), Int(limit));
    }
  }

  /**
   * The query arguments: the post type, `no_found_rows`, the current order,
   * `update_post_meta_cache = false` unless the custom arguments set both
   * `meta_key` and `tax_query`, and `posts_per_page` exactly when the limit
   * is not 0; a custom argument overrides any of them, and every other
   * custom argument is passed on as it is.
   */
  lemma QueryArgsSpec(postType: string, orderby: string, order: string, limit: int, custom: Entries)
    requires DistinctKeys(custom)
    ensures Get(QueryArgs(postType, orderby, order, limit, custom), Name("post_type"))
      == Overridden(custom, "post_type", Some(Str(postType)))
    ensures Get(QueryArgs(postType, orderby, order, limit, custom), Name("no_found_rows"))
      == Overridden(custom, "no_found_rows", Some(Bool(true)))
    ensures Get(QueryArgs(postType, orderby, order, limit, custom), Name("orderby"))
      == Overridden(custom, "orderby", Some(Str(orderby)))
    ensures Get(QueryArgs(postType, orderby, order, limit, custom), Name("order"))
      == Overridden(custom, "order", Some(Str(order)))
    ensures Get(QueryArgs(postType, orderby, order, limit, custom), Name("update_post_meta_cache"))
      == Overridden(custom, "update_post_meta_cache",
                    if Isset(custom, "meta_key") && Isset(custom, "tax_query") then None else Some(Bool(false)))
    ensures Get(QueryArgs(postType, orderby, order, limit, custom), Name("posts_per_page"))
      == Overridden(custom, "posts_per_page", if limit != 0 then Some(Int(limit)) else None)
    ensures forall n :: n !in QueryKeys ==> Get(QueryArgs(postType, orderby, order, limit, custom), Name(n)) == Get(custom, Name(n))
  {
    var own := OwnArgs(postType, orderby, order, limit, custom);
    OwnArgsShape(postType, orderby, order, limit, custom);
    forall n
      ensures Get(ArrayMerge(own, custom), Name(n)) == Overridden(custom, n, Get(own, Name(n)))
    {
      ArrayMergeNamed(own, custom, n);
    }
  }

  /** One tax-query clause: the taxonomy, the field the terms name, the terms, and operator `IN`. */
  function TermClause(taxonomy: Value, field: Value, terms: Value): Value
  {
    Arr([ (Name("taxonomy"), taxonomy),
          (Name("field"), field),
          (Name("terms"), terms),
          (Name("operator"), Str("IN")) ])
  }

  /** A scalar term is wrapped into a one-element list. */
  function WrapTerms(terms: Value): Value
  {
    if terms.Arr? then terms else Arr(ListOf([terms]))
  }

  /** The custom arguments `get_posts_by_term` passes to `get_posts`. */
  function TermArgs(taxonomy: string, terms: Value, field: string, args: Entries): Entries
  {
    Set(args, Name("tax_query"), Arr(ListOf([TermClause(Str(taxonomy), Str(field), WrapTerms(terms))])))
  }

  /**
   * `get_posts_by_term` queries with limit -1 and a single `IN` clause over
   * the (wrapped) terms; the caller's other arguments are passed on.
   */
  lemma TermQuerySpec(postType: string, orderby: string, order: string, taxonomy: string, terms: Value,
                      field: string, args: Entries)
    requires DistinctKeys(args)
    ensures Get(QueryArgs(postType, orderby, order, -1, TermArgs(taxonomy, terms, field, args)), Name("tax_query"))
      == Some(Arr(ListOf([TermClause(Str(taxonomy), Str(field), WrapTerms(terms))])))
    ensures Get(QueryArgs(postType, orderby, order, -1, TermArgs(taxonomy, terms, field, args)), Name("posts_per_page"))
      == Overridden(args, "posts_per_page", Some(Int(-1)))
    ensures Get(QueryArgs(postType, orderby, order, -1, TermArgs(taxonomy, terms, field, args)), Name("update_post_meta_cache"))
      == Overridden(args, "update_post_meta_cache", if Isset(args, "meta_key") then None else Some(Bool(false)))
    ensures Get(QueryArgs(postType, orderby, order, -1, TermArgs(taxonomy, terms, field, args)), Name("post_type"))
      == Overridden(args, "post_type", Some(Str(postType)))
  {
    var clauses := Arr(ListOf([TermClause(Str(taxonomy), Str(field), WrapTerms(terms))]));
    var custom := TermArgs(taxonomy, terms, field, args);
    SetKeepsDistinct(args, Name("tax_query"), clauses);
    assert Isset(custom, "tax_query");
    assert Isset(custom, "meta_key") == Isset(args, "meta_key");
    OverriddenAfterSet(args, "tax_query", clauses, "posts_per_page", Some(Int(-1)));
    OverriddenAfterSet(args, "tax_query", clauses, "post_type", Some(Str(postType)));
    OverriddenAfterSet(args, "tax_query", clauses, "update_post_meta_cache",
                       if Isset(args, "meta_key") then None else Some(Bool(false)));
    assert "tax_query" !in QueryKeys;
    QueryArgsSpec(postType, orderby, order, -1, custom);
  }

  lemma OverriddenAfterSet(args: Entries, key: string, v: Value, other: string, fallback: Option<Value>)
    requires other != key
    ensures Overridden(Set(args, Name(key), v), other, fallback) == Overridden(args, other, fallback)
  {
  }

  /** The tax query `get_posts_by_terms` builds: the relation, then one clause per taxonomy in input order. */
  function TermsTaxQuery(taxonomies: Entries, relation: Value): Entries
  {
    [(Name("relation"), relation)]
      + seq(|taxonomies|, i requires 0 <= i < |taxonomies| =>
              (Index(i), TermClause(KeyValue(taxonomies[i].0), Str("slug"), taxonomies[i].1)))
  }

  /** An array key read as a value, as a loop over keys and values yields it. */
  function KeyValue(k: Key): Value
  {
    match k
    case Name(s) => Str(s)
    case Index(i) => Int(i)
  }

  /** The `foreach` loop of `get_posts_by_terms`: appends one clause per taxonomy. */
  method BuildTaxQuery(taxonomies: Entries, relation: Value) returns (taxQuery: Entries)
    ensures |taxQuery| == |taxonomies| + 1
    ensures taxQuery[0] == (Name("relation"), relation)
    ensures forall i :: 0 <= i < |taxonomies| ==>
      taxQuery[i + 1] == (Index(i), TermClause(KeyValue(taxonomies[i].0), Str("slug"), taxonomies[i].1))
  {
    taxQuery := [(Name("relation"), relation)];
    assert taxQuery[..0] == [];
    for i := 0 to |taxonomies|
      invariant |taxQuery| == i + 1
      invariant taxQuery[0] == (Name("relation"), relation)
      invariant forall j :: 0 <= j < i ==>
        taxQuery[j + 1] == (Index(j), TermClause(KeyValue(taxonomies[j].0), Str("slug"), taxonomies[j].1))
      invariant NextIndex(taxQuery) == i
    {
      var clause := TermClause(KeyValue(taxonomies[i].0), Str("slug"), taxonomies[i].1);
      var next := Push(taxQuery, clause);
      assert next[..|next| - 1] == taxQuery;
      taxQuery := next;
    }
  }

  /** Every clause of the tax query is found under its position, and the relation under `relation`. */
  lemma TermsTaxQueryLookup(taxonomies: Entries, relation: Value, i: nat)
    requires i < |taxonomies|
    ensures Get(TermsTaxQuery(taxonomies, relation), Name("relation")) == Some(relation)
    ensures Get(TermsTaxQuery(taxonomies, relation), Index(i))
      == Some(TermClause(KeyValue(taxonomies[i].0), Str("slug"), taxonomies[i].1))
  {
    var q := TermsTaxQuery(taxonomies, relation);
    GetFirstMatch(q, 0);
    assert q[i + 1].0 == Index(i);
    GetFirstMatch(q, i + 1);
  }

  /** The custom arguments `get_posts_by_meta` passes to `get_posts`. */
  function MetaArgs(metaKey: Value, metaValue: Value, metaCompare: Value): Entries
  {
    var a0 := Set([], Name("meta_key"), metaKey);
    var a1 := Set(a0, Name("meta_value"), metaValue);
    Set(a1, Name("meta_compare"), metaCompare)
  }

  /**
   * `get_posts_by_meta` passes the meta key, value and comparison through;
   * since it never sets `tax_query`, the meta cache is always switched off.
   */
  lemma MetaQuerySpec(postType: string, orderby: string, order: string, metaKey: Value, metaValue: Value,
                      metaCompare: Value, limit: int)
    ensures Get(QueryArgs(postType, orderby, order, limit, MetaArgs(metaKey, metaValue, metaCompare)), Name("meta_key")) == Some(metaKey)
    ensures Get(QueryArgs(postType, orderby, order, limit, MetaArgs(metaKey, metaValue, metaCompare)), Name("meta_value")) == Some(metaValue)
    ensures Get(QueryArgs(postType, orderby, order, limit, MetaArgs(metaKey, metaValue, metaCompare)), Name("meta_compare")) == Some(metaCompare)
    ensures Get(QueryArgs(postType, orderby, order, limit, MetaArgs(metaKey, metaValue, metaCompare)), Name("update_post_meta_cache"))
      == Some(Bool(false))
    ensures Get(QueryArgs(postType, orderby, order, limit, MetaArgs(metaKey, metaValue, metaCompare)), Name("posts_per_page"))
      == if limit != 0 then Some(Int(limit)) else None
    ensures Get(QueryArgs(postType, orderby, order, limit, MetaArgs(metaKey, metaValue, metaCompare)), Name("post_type"))
      == Some(Str(postType))
  {
    var a0 := Set([], Name("meta_key"), metaKey);
    SetKeepsDistinct([], Name("meta_key"), metaKey);
    var a1 := Set(a0, Name("meta_value"), metaValue);
    SetKeepsDistinct(a0, Name("meta_value"), metaValue);
    var custom := Set(a1, Name("meta_compare"), metaCompare);
    SetKeepsDistinct(a1, Name("meta_compare"), metaCompare);
    assert !Isset(custom, "tax_query");
    assert Name("post_type") !in Keys(custom) && Name("posts_per_page") !in Keys(custom);
    assert Name("update_post_meta_cache") !in Keys(custom);
    assert "meta_key" !in QueryKeys && "meta_value" !in QueryKeys && "meta_compare" !in QueryKeys;
    QueryArgsSpec(postType, orderby, order, limit, custom);
  }

  // --------------------------------------------------------------- dispatch

  /** The taxonomy key of `get_posts_by_<tax>`: every `get_posts_by_` removed, `_` turned into `-`. */
  function CallTaxonomy(func: string): string
  {
    Replace(RemoveAll(func, GetPostsByPrefix), '_', '-')
  }

  /** Every name sanitised, in order, as `array_map` applies the host's sanitiser. */
  function SanitizedAll(names: seq<string>, sanitize: string -> string): (r: seq<string>)
    ensures |r| == |names| && forall i :: 0 <= i < |names| ==> r[i] == sanitize(names[i])
  {
    seq(|names|, i requires 0 <= i < |names| => sanitize(names[i]))
  }

  /** The taxonomy a dynamic call is dispatched to, if any. */
  function Dispatch(func: string, registered: seq<string>, sanitize: string -> string): (r: Option<string>)
    ensures r.Some? <==>
      && StartsWithIgnoringCase(func, GetPostsByPrefix)
      && exists j :: 0 <= j < |registered| && sanitize(registered[j]) == CallTaxonomy(func)
    ensures r.Some? ==> r.value == CallTaxonomy(func)
  {
    var taxonomy := CallTaxonomy(func);
    var sanitized := SanitizedAll(registered, sanitize);
    if StartsWithIgnoringCase(func, GetPostsByPrefix) && taxonomy in sanitized then
      assert exists j :: 0 <= j < |sanitized| && sanitized[j] == taxonomy;
      Some(taxonomy)
    else
      assert forall j :: 0 <= j < |registered| ==> sanitized[j] == sanitize(registered[j]);
      None
  }

  /** For `get_posts_by_<rest>`, the key is `rest` with `_` turned into `-`. */
  lemma CallKeyOfPrefixedName(rest: string)
    requires forall i :: 0 <= i <= |rest| ==> !OccursAt(GetPostsByPrefix, rest, i)
    ensures StartsWithIgnoringCase(GetPostsByPrefix + rest, GetPostsByPrefix)
    ensures CallTaxonomy(GetPostsByPrefix + rest) == Replace(rest, '_', '-')
  {
    RemoveAllLeading(GetPostsByPrefix, rest);
    RemoveAllAbsent(rest, GetPostsByPrefix);
    assert (GetPostsByPrefix + rest)[..|GetPostsByPrefix|] == GetPostsByPrefix;
  }

  /**
   * A call `get_posts_by_<rest>` is dispatched to `rest` with `_` turned
   * into `-` once a registered taxonomy sanitises to that key.
   */
  lemma RegisteredTaxonomyDispatches(rest: string, registered: seq<string>, sanitize: string -> string, j: nat)
    requires forall i :: 0 <= i <= |rest| ==> !OccursAt(GetPostsByPrefix, rest, i)
    requires j < |registered| && sanitize(registered[j]) == Replace(rest, '_', '-')
    ensures Dispatch(GetPostsByPrefix + rest, registered, sanitize) == Some(Replace(rest, '_', '-'))
  {
    CallKeyOfPrefixedName(rest);
  }

  /** Registering `genre` lets `get_posts_by_genre` through, as the class documents. */
  lemma GenreCallDispatches(registered: seq<string>, sanitize: string -> string, j: nat)
    requires j < |registered| && registered[j] == "genre" && sanitize("genre") == "genre"
    ensures Dispatch("get_posts_by_genre", registered, sanitize) == Some("genre")
  {
    assert Replace("genre", '_', '-') == "genre";
    assert GetPostsByPrefix + "genre" == "get_posts_by_genre";
    RegisteredTaxonomyDispatches("genre", registered, sanitize, j);
  }

  /**
   * The prefix test ignores case but the removal does not: a name whose
   * prefix is spelt in another case keeps it in the derived key.
   */
  lemma CasedPrefixKept(func: string)
    requires forall i :: 0 <= i <= |func| ==> !OccursAt(GetPostsByPrefix, func, i)
    ensures CallTaxonomy(func) == Replace(func, '_', '-')
  {
    RemoveAllAbsent(func, GetPostsByPrefix);
  }

  // -------------------------------------------------------------- meta boxes

  /** The host call that registers a meta box: its id is the post type followed by the sanitised title. */
  function MetaBoxCallFor(postType: string, sanitize: string -> string, m: MetaBox): MetaBoxCall
  {
    MetaBoxCall(postType + sanitize(m.title), m.title, m.callback, postType, m.context, m.priority)
  }

  // --------------------------------------------------------------- the class

  class PostType {
    /** The host's `sanitize_title`. */
    const sanitizeTitle: string -> string
    /** The registry shared by every post type (a static in the source). */
    const registry: Registry
    /**
     * The parent class's `taxonomy`, as its effect on `taxonomies`: the new
     * list, given the old one, the names registered and the options.
     */
    const parentTaxonomy: (seq<string>, TaxonomyNames, Entries) -> seq<string>

    var postTypeName: string
    var singular: string
    var plural: string
    /** The options handed to the parent class for registration. */
    var options: Entries
    /** The taxonomy names the parent class holds; only the parent changes this list. */
    var taxonomies: seq<string>
    var orderby: string
    var order: string
    var metaboxes: seq<MetaBox>
    /** The arguments of the last query run. */
    var lastQuery: Option<Entries>

    constructor (registry: Registry, sanitizeTitle: string -> string,
                 parentTaxonomy: (seq<string>, TaxonomyNames, Entries) -> seq<string>, taxonomies: seq<string>,
                 branch: ArchiveBranch, singular: string,
                 plural: Option<string> := None, icon: Value := Null, supports: Value := Arr([]),
                 options: Entries := [])
      ensures this.registry == registry && this.sanitizeTitle == sanitizeTitle
      ensures this.parentTaxonomy == parentTaxonomy && this.taxonomies == taxonomies
      ensures postTypeName == Lower(sanitizeTitle(singular))
      ensures this.singular == singular
      ensures this.plural == if plural.None? then singular + "s" else plural.value
      ensures OptionsDefaulted(options, this.options, this.plural, icon, supports, branch, sanitizeTitle)
      ensures metaboxes == [] && lastQuery == None
      ensures orderby == "date" && order == "DESC"
    {
      var name := Lower(sanitizeTitle(singular));
      var pluralName := if plural.None? then singular + "s" else plural.value;
      var opts := PrepareOptions(pluralName, icon, supports, options, branch, sanitizeTitle);
      this.registry := registry;
      this.sanitizeTitle := sanitizeTitle;
      this.parentTaxonomy := parentTaxonomy;
      postTypeName := name;
      this.singular := singular;
      this.plural := pluralName;
      this.options := opts;
      this.taxonomies := taxonomies;
      orderby := "date";
      order := "DESC";
      metaboxes := [];
      lastQuery := None;
    }

    /**
     * Registers a taxonomy for this post type: rejected when its slug is
     * reserved, otherwise handed to the parent class and recorded at the
     * end of this post type's list.
     */
    method Taxonomy(singular: string, plural: Option<string> := None, options: Entries := [])
      returns (result: Result<TaxonomyNames, Error>)
      modifies registry, this`taxonomies
      ensures result == RegisterTaxonomy(singular, plural, options, sanitizeTitle)
      ensures taxonomies == if result.Success? then parentTaxonomy(old(taxonomies), result.value, options)
                            else old(taxonomies)
      ensures registry.lists == if result.Success? then old(registry.lists)[postTypeName := old(registry.ListFor(postTypeName)) + [result.value]]
                                else old(registry.lists)
      ensures registry.ListFor(postTypeName) ==
        old(registry.ListFor(postTypeName)) + (if result.Success? then [result.value] else [])
      ensures forall p :: p != postTypeName ==> registry.ListFor(p) == old(registry.ListFor(p))
    {
      var name := sanitizeTitle(singular);
      var slug := if Isset(options, "slug") then sanitizeTitle(ToStr(Get(options, Name("slug")).value)) else name;
      if slug in ProtectedTaxonomies {
        return Failure(ReservedTaxonomy(name));
      }
      var pluralName := if plural.None? then name + "s" else plural.value;
      var names := TaxonomyNames(name, singular, pluralName);
      taxonomies := parentTaxonomy(taxonomies, names, options);
      registry.Record(postTypeName, names);
      result := Success(names);
    }

    /** Builds the query arguments and remembers them as the last query. */
    method GetPosts(limit: int := 0, customArgs: Entries := []) returns (query: Entries)
      modifies this`lastQuery
      ensures query == QueryArgs(postTypeName, orderby, order, limit, customArgs)
      ensures lastQuery == Some(query)
    {
      var args := BaseArgs(postTypeName, orderby, order);
      if !Isset(customArgs, "meta_key") {
        args := Set(args, Name("update_post_meta_cache"), Bool(false));
      }
      if !Isset(customArgs, "tax_query") {
        args := Set(args, Name("update_post_meta_cache"), Bool(false));
      }
      if limit != 0 && !Isset(args, "posts_per_page") {
        args := Set(args, Name("posts_per_page"), Int(limit));
      }
      args := ArrayMerge(args, customArgs);
      lastQuery := Some(args);
      query := args;
    }

    method GetPostsByTerm(taxonomy: string, terms: Value, field: string := "slug", args: Entries := [])
      returns (query: Entries)
      modifies this`lastQuery
      ensures query == QueryArgs(postTypeName, orderby, order, -1, TermArgs(taxonomy, terms, field, args))
      ensures lastQuery == Some(query)
    {
      var termList := if terms.Arr? then terms else Arr(ListOf([terms]));
      var taxArgs := Set(args, Name("tax_query"), Arr(ListOf([TermClause(Str(taxonomy), Str(field), termList)])));
      query := GetPosts(-1, taxArgs);
    }

    method GetPostsByTerms(taxonomies: Entries, relation: Value := Str("AND"), args: Entries := [])
      returns (query: Entries)
      modifies this`lastQuery
      ensures query == QueryArgs(postTypeName, orderby, order, -1,
                                 Set(args, Name("tax_query"), Arr(TermsTaxQuery(taxonomies, relation))))
      ensures lastQuery == Some(query)
    {
      var taxQuery := BuildTaxQuery(taxonomies, relation);
      assert taxQuery == TermsTaxQuery(taxonomies, relation);
      query := GetPosts(-1, Set(args, Name("tax_query"), Arr(taxQuery)));
    }

    method GetPostsByMeta(metaKey: Value, metaValue: Value, metaCompare: Value := Str("="), limit: int := 0)
      returns (query: Entries)
      modifies this`lastQuery
      ensures query == QueryArgs(postTypeName, orderby, order, limit, MetaArgs(metaKey, metaValue, metaCompare))
      ensures lastQuery == Some(query)
    {
      query := GetPosts(limit, MetaArgs(metaKey, metaValue, metaCompare));
    }

    /**
     * `get_posts_by_<taxonomy>(...)`: dispatched to `GetPostsByTerm` with the
     * call's arguments as the terms when the name carries the prefix and
     * names a registered taxonomy; any other name is an error.
     */
    method Call(func: string, params: seq<Value>) returns (result: Result<Entries, Error>)
      modifies this`lastQuery
      ensures Dispatch(func, taxonomies, sanitizeTitle).Some? ==>
        && result.Success?
        && result.value == QueryArgs(postTypeName, orderby, order, -1,
                                     TermArgs(Dispatch(func, taxonomies, sanitizeTitle).value, Arr(ListOf(params)), "slug", []))
        && lastQuery == Some(result.value)
      ensures Dispatch(func, taxonomies, sanitizeTitle).None? ==>
        result == Failure(MethodNotFound(func)) && lastQuery == old(lastQuery)
    {
      if StartsWithIgnoringCase(func, GetPostsByPrefix) {
        var taxonomy := Replace(RemoveAll(func, GetPostsByPrefix), '_', '-');
        var registered := SanitizedAll(taxonomies, sanitizeTitle);
        if taxonomy in registered {
          var query := GetPostsByTerm(taxonomy, Arr(ListOf(params)));
          return Success(query);
        }
      }
      result := Failure(MethodNotFound(func));
    }

    /**
     * Whether the last query has posts left; when no query has run yet, the
     * default query runs first. `hasPosts` is the host's answer for a query.
     */
    method HavePosts(hasPosts: Entries -> bool) returns (more: bool)
      modifies this`lastQuery
      ensures old(lastQuery).Some? ==> lastQuery == old(lastQuery)
      ensures old(lastQuery).None? ==> lastQuery == Some(QueryArgs(postTypeName, orderby, order, 0, []))
      ensures lastQuery.Some? && more == hasPosts(lastQuery.value)
    {
      if lastQuery.None? {
        var _ := GetPosts();
      }
      more := hasPosts(lastQuery.value);
    }

    method SetOrder(orderby: string, order: string := "ASC")
      modifies this`orderby, this`order
      ensures this.orderby == orderby && this.order == order
    {
      this.orderby := orderby;
      this.order := order;
    }

    /** The host calls `register_meta_boxes` makes, one per meta box, in the order they were added. */
    method RegisterMetaBoxes() returns (calls: seq<MetaBoxCall>)
      ensures |calls| == |metaboxes|
      ensures forall i :: 0 <= i < |metaboxes| ==> calls[i] == MetaBoxCallFor(postTypeName, sanitizeTitle, metaboxes[i])
    {
      calls := [];
      for i := 0 to |metaboxes|
        invariant |calls| == i
        invariant forall j :: 0 <= j < i ==> calls[j] == MetaBoxCallFor(postTypeName, sanitizeTitle, metaboxes[j])
      {
        var m := metaboxes[i];
        calls := calls + [MetaBoxCall(postTypeName + sanitizeTitle(m.title), m.title, m.callback, postTypeName, m.context, m.priority)];
      }
    }

    method AddMetaBox(title: string, callback: Value, context: string := "normal", priority: string := "low")
      modifies this`metaboxes
      ensures metaboxes == old(metaboxes) + [MetaBox(title, callback, context, priority)]
    {
      metaboxes := metaboxes + [MetaBox(title, callback, context, priority)];
    }

    method AddSidebarMetaBox(title: string, callback: Value, priority: string := "low")
      modifies this`metaboxes
      ensures metaboxes == old(metaboxes) + [MetaBox(title, callback, "side", priority)]
    {
      AddMetaBox(title, callback, "side", priority);
    }
  }
}
