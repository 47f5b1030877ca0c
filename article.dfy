/** Articles with type-checked fields, an id taken from a class-level counter, and a
    `short_introduction` that cuts the content at the last space or newline at or before
    a given index. */
module Articles {
  import opened Values

  /** The types an `ArticleField` can require. */
  datatype FieldType = StrType | DateTimeType

  /** `isinstance(value, field_type)`. */
  predicate IsInstance(value: Value, t: FieldType)
  {
    match t
    case StrType => value.Str?
    case DateTimeType => value.DateTime?
  }

  /** What `ArticleField.__get__` returns: the descriptor itself when looked up on the
      class, else the stored value. */
  datatype Got = Descriptor(f: ArticleField) | Stored(value: Value)

  /** A type-checking descriptor bound to the attribute `name`. */
  datatype ArticleField = ArticleField(name: string, fieldType: FieldType)
  {
    /** `__get__(instance, owner)`: the value stored under the field's name, `None` when
        nothing is stored, and the descriptor itself on the class. */
    function Get(instance: Option<Article>): (r: Got)
      reads if instance.Some? then {instance.value} else {}
      ensures instance.None? ==> r == Descriptor(this)
      ensures instance.Some? && name !in instance.value.dict ==> r == Stored(NoneValue)
      ensures instance.Some? && name in instance.value.dict ==> r == Stored(instance.value.dict[name])
    {
      match instance
      case None => Descriptor(this)
      case Some(a) => Stored(if name in a.dict then a.dict[name] else NoneValue)
    }

    /** `__set__(instance, value)`: a value of another type raises `TypeError` and
        changes nothing; otherwise it is stored under the field's name. */
    method Set(instance: Article, value: Value) returns (res: Outcome)
      modifies instance`dict
      ensures res == Pass <==> IsInstance(value, fieldType)
      ensures res.Fail? ==> res.error == TypeError && instance.dict == old(instance.dict)
      ensures res.Pass? ==> instance.dict == old(instance.dict)[name := value]
      ensures res.Pass? ==> Get(Some(instance)) == Stored(value)
    {
      if !IsInstance(value, fieldType) {
        return Fail(TypeError);
      }
      instance.dict := instance.dict[name := value];
      return Pass;
    }
  }

  const Title := ArticleField("title", StrType)
  const Author := ArticleField("author", StrType)
  const PublicationDate := ArticleField("publication_date", DateTimeType)
  const Content := ArticleField("content", StrType)

  /** The class attribute `Article._id`: the id the next article will take. */
  class IdCounter {
    var next: int

    constructor ()
      ensures next == 0
    {
      next := 0;
    }
  }

  /** `Article._validate_integer`: a `TypeError` for a non-integer, a `ValueError` for an
      integer that is not positive. */
  function ValidatePositive(value: Value): (r: Outcome)
    ensures r == Pass <==> value.Int? && value.i > 0
    ensures r == Fail(TypeError) <==> !value.Int?
    ensures r == Fail(ValueError) <==> value.Int? && value.i <= 0
  {
    if !value.Int? then Fail(TypeError)
    else if value.i <= 0 then Fail(ValueError)
    else Pass
  }

  /** The characters `short_introduction` may cut at. */
  predicate IsBreak(c: char)
  {
    c == ' ' || c == '\n'
  }

  class Article {
    var dict: map<string, Value>
    var id: int

    /** Field `f` holds a value of its type. */
    ghost predicate Holds(f: ArticleField)
      reads this
    {
      f.name in dict && IsInstance(dict[f.name], f.fieldType)
    }

    /** After construction every field holds a value of its type; later sets are
        type-checked, so this stays true. */
    ghost predicate Valid()
      reads this
    {
      Holds(Title) && Holds(Author) && Holds(PublicationDate) && Holds(Content)
    }

    constructor Blank()
      ensures dict == map[]
    {
      dict := map[];
      id := 0;
    }

    /** `Article(title, author, publication_date, content)`: the four fields are set in
        that order through their descriptors; the first one of the wrong type raises
        before the counter is read. On success the article takes the counter's value as
        its id and the counter moves on by one. */
    static method New(counter: IdCounter, title: Value, author: Value, date: Value, content: Value)
      returns (r: Result<Article>)
      modifies counter
      ensures r.Ok? <==>
        title.Str? && author.Str? && date.DateTime? && content.Str?
      ensures r.Err? ==> r.error == TypeError && counter.next == old(counter.next)
      ensures r.Ok? ==> fresh(r.value) && r.value.Valid()
      ensures r.Ok? ==> r.value.id == old(counter.next) && counter.next == old(counter.next) + 1
      ensures r.Ok? ==>
        r.value.dict == map["title" := title, "author" := author, "publication_date" := date, "content" := content]
    {
      var a := new Article.Blank();
      var res := Title.Set(a, title);
      if res.Fail? {
        return Err(res.error);
      }
      res := Author.Set(a, author);
      if res.Fail? {
        return Err(res.error);
      }
      res := PublicationDate.Set(a, date);
      if res.Fail? {
        return Err(res.error);
      }
      res := Content.Set(a, content);
      if res.Fail? {
        return Err(res.error);
      }
      a.id := counter.next;
      counter.next := counter.next + 1;
      return Ok(a);
    }

    /** The text of the `content` field. */
    function ContentText(): string
      reads this
      requires Valid()
    {
      dict[Content.name].s
    }

    /** `len(article)`: the length of its content. */
    function Length(): (r: nat)
      reads this
      requires Valid()
      ensures r == |ContentText()|
    {
      match Content.Get(Some(this))
      case Stored(Str(s)) => |s|
    }

    /** `short_introduction(n_characters)`: scans `i` from `n_characters` down to 0 and
        returns the content before the first `i` found with a space or newline at
        `content[i]`, or `None` when there is none. The first probe is at
        `n_characters` itself, so an index past the end raises `IndexError`. */
    method ShortIntroduction(nChars: Value) returns (r: Result<Option<string>>)
      requires Valid()
      ensures !nChars.Int? ==> r == Err(TypeError)
      ensures nChars.Int? && nChars.i <= 0 ==> r == Err(ValueError)
      ensures nChars.Int? && 0 < nChars.i && |ContentText()| <= nChars.i ==> r == Err(IndexError)
      ensures r.Ok? <==> nChars.Int? && 0 < nChars.i < |ContentText()|
      ensures r.Ok? && r.value.Some? ==>
        var cut := |r.value.value|;
        && cut <= nChars.i
        && r.value.value == ContentText()[..cut]
        && IsBreak(ContentText()[cut])
        && (forall j :: cut < j <= nChars.i ==> !IsBreak(ContentText()[j]))
      ensures r.Ok? && r.value.None? ==>
        forall j :: 0 <= j <= nChars.i ==> !IsBreak(ContentText()[j])
    {
      var check := ValidatePositive(nChars);
      if check.Fail? {
        return Err(check.error);
      }
      var content := ContentText();
      var n := nChars.i;
      var i := n;
      while i >= 0
        invariant -1 <= i <= n
        invariant i < n ==> n < |content|
        invariant forall j :: i < j <= n ==> !IsBreak(content[j])
      {
        if i >= |content| {
          return Err(IndexError);
        }
        if IsBreak(content[i]) {
          return Ok(Some(content[..i]));
        }
        i := i - 1;
      }
      return Ok(None);
    }
  }

  // ---------------------------------------------------------------------------
  // Ids

  /** The ids a run of constructions hands out, starting from counter value `start`;
      `succeeds[k]` says whether the k-th construction passed its type checks (a failed
      one takes no id and leaves the counter alone, as `Article.New` states). */
  function IdsAssigned(start: int, succeeds: seq<bool>): seq<int>
    decreases succeeds
  {
    if succeeds == [] then []
    else if succeeds[0] then [start] + IdsAssigned(start + 1, succeeds[1..])
    else IdsAssigned(start, succeeds[1..])
  }

  /** The ids handed out are consecutive from the starting counter value, hence
      distinct and increasing in construction order. */
  lemma {:induction false} IdsConsecutive(start: int, succeeds: seq<bool>)
    ensures forall k :: 0 <= k < |IdsAssigned(start, succeeds)| ==> IdsAssigned(start, succeeds)[k] == start + k
    ensures forall k, l :: 0 <= k < l < |IdsAssigned(start, succeeds)| ==>
      IdsAssigned(start, succeeds)[k] < IdsAssigned(start, succeeds)[l]
    decreases succeeds
  {
    if succeeds != [] {
      if succeeds[0] {
        IdsConsecutive(start + 1, succeeds[1..]);
      } else {
        IdsConsecutive(start, succeeds[1..]);
      }
    }
  }

  /** The arguments of one `Article(title, author, publication_date, content)` call. */
  datatype ArticleArgs = ArticleArgs(title: Value, author: Value, date: Value, content: Value)

  /** Whether a construction with these arguments passes its type checks. */
  predicate WellTyped(a: ArticleArgs)
  {
    a.title.Str? && a.author.Str? && a.date.DateTime? && a.content.Str?
  }

  function Successes(args: seq<ArticleArgs>): (r: seq<bool>)
    ensures |r| == |args| && forall k :: 0 <= k < |args| ==> r[k] == WellTyped(args[k])
  {
    seq(|args|, k requires 0 <= k < |args| => WellTyped(args[k]))
  }

  /** Constructs an article for each argument set in turn, sharing one counter, and
      collects the ids of the articles that were built. They are exactly the ids
      `IdsAssigned` describes, so they run consecutively from the counter's start. */
  method ConstructAll(counter: IdCounter, args: seq<ArticleArgs>) returns (ids: seq<int>)
    modifies counter
    ensures ids == IdsAssigned(old(counter.next), Successes(args))
    ensures forall k :: 0 <= k < |ids| ==> ids[k] == old(counter.next) + k
    ensures counter.next == old(counter.next) + |ids|
  {
    ghost var start := counter.next;
    ghost var flags := Successes(args);
    ids := [];
    var i := 0;
    assert flags[0..] == flags;
    while i < |args|
      invariant 0 <= i <= |args|
      invariant ids + IdsAssigned(counter.next, flags[i..]) == IdsAssigned(start, flags)
      invariant counter.next == start + |ids|
    {
      var a := args[i];
      assert flags[i..][0] == WellTyped(a) && flags[i..][1..] == flags[i + 1..];
      var r := Article.New(counter, a.title, a.author, a.date, a.content);
      if r.Ok? {
        ids := ids + [r.value.id];
      }
      i := i + 1;
    }
    assert ids + [] == ids;
    IdsConsecutive(start, flags);
  }
}
