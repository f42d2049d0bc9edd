/**
 * The two entities of the blog: a post (`Blog`) and a reader's comment
 * (`Comment`). Both are mutable records; a post also owns an ordered
 * collection of comments, and each comment points back at its post.
 *
 * Time is an integer count of seconds supplied by the caller (`now`), so the
 * "+2 hours" applied by both constructors is plain addition. Identifiers
 * are assigned by the storage layer, which is not part of this model, so no
 * operation here ever sets `id`.
 */
module Entity {
  import opened Wrappers
  import opened Collection
  import opened Validation

  /** Both constructors date a new entity two hours after the supplied clock value. */
  const CreatedAtOffset: int := 2 * 60 * 60

  /** The longest title, author and description a post accepts. */
  const MaxFieldLength: nat := 255

  /** The validated properties of a post, in declaration order. */
  const BlogProperties: seq<string> := ["title", "content", "author", "email", "description"]

  /** The constraints declared on each property of a post. */
  function BlogRules(property: string): seq<Constraint>
  {
    if property == "title" then [NotBlank, MaxLength(MaxFieldLength)]
    else if property == "content" then [NotBlank]
    else if property == "author" then [NotBlank, MaxLength(MaxFieldLength)]
    else if property == "email" then [NotBlank, EmailFormat]
    else if property == "description" then [NotBlank, MaxLength(MaxFieldLength)]
    else []
  }

  /** The validated properties of a comment, in declaration order. */
  const CommentProperties: seq<string> := ["content", "author", "email"]

  /** The constraints declared on each property of a comment. */
  function CommentRules(property: string): seq<Constraint>
  {
    if property == "content" then [NotBlank]
    else if property == "author" then [NotBlank]
    else if property == "email" then [NotBlank, EmailFormat]
    else []
  }

  class Blog {
    var id: Option<int>
    var title: Option<string>
    var content: Option<string>
    var createdAt: int
    var author: Option<string>
    var email: Option<string>
    var description: Option<string>
    var comments: seq<Comment>

    /** A new post: no id, no text fields, no comments, dated `now` plus two hours. */
    constructor (now: int)
      ensures id == None && title == None && content == None
      ensures author == None && email == None && description == None
      ensures comments == [] && InSync()
      ensures createdAt == now + CreatedAtOffset
    {
      id := None;
      title := None;
      content := None;
      author := None;
      email := None;
      description := None;
      comments := [];
      createdAt := now + CreatedAtOffset;
    }

    function GetId(): Option<int> reads this { id }
    function GetTitle(): Option<string> reads this { title }
    function GetContent(): Option<string> reads this { content }
    function GetCreatedAt(): int reads this { createdAt }
    function GetAuthor(): Option<string> reads this { author }
    function GetEmail(): Option<string> reads this { email }
    function GetDescription(): Option<string> reads this { description }

    /** A read-only view of the comment collection; its length is the count. */
    function GetComments(): (r: seq<Comment>)
      reads this
      ensures |r| == GetCommentCount()
    {
      comments
    }

    /**
     * The number of entries in the collection; when it holds no duplicate
     * (which `AddComment` and `RemoveComment` preserve), that is the number
     * of distinct comments of the post.
     */
    function GetCommentCount(): (n: nat)
      reads this
      ensures n == 0 <==> comments == []
      ensures NoDuplicates(comments) ==> n == |Elements(comments)|
    {
      if NoDuplicates(comments) then DistinctCount(comments); |comments|
      else |comments|
    }

    // Each setter's frame names the one field it overwrites, so every other
    // field of the post, and its comment collection, is left as it was.
    // Each returns the post itself, for chained calls.

    method SetTitle(title: string) returns (r: Blog)
      modifies this`title
      ensures GetTitle() == Some(title) && r == this
    {
      this.title := Some(title);
      r := this;
    }

    method SetContent(content: string) returns (r: Blog)
      modifies this`content
      ensures GetContent() == Some(content) && r == this
    {
      this.content := Some(content);
      r := this;
    }

    method SetCreatedAt(createdAt: int) returns (r: Blog)
      modifies this`createdAt
      ensures GetCreatedAt() == createdAt && r == this
    {
      this.createdAt := createdAt;
      r := this;
    }

    method SetAuthor(author: string) returns (r: Blog)
      modifies this`author
      ensures GetAuthor() == Some(author) && r == this
    {
      this.author := Some(author);
      r := this;
    }

    method SetEmail(email: string) returns (r: Blog)
      modifies this`email
      ensures GetEmail() == Some(email) && r == this
    {
      this.email := Some(email);
      r := this;
    }

    /** Unlike the other setters, this one also accepts null. */
    method SetDescription(description: Option<string>) returns (r: Blog)
      modifies this`description
      ensures GetDescription() == description && r == this
    {
      this.description := description;
      r := this;
    }

    /**
     * Every comment in the collection points back at this post: the two
     * sides of the association agree. A post without comments is in sync.
     */
    ghost predicate InSync(): (ok: bool)
      reads this, comments
      ensures comments == [] ==> ok
    {
      forall c :: c in comments ==> c.blog == this
    }

    /**
     * Adds `c` at the end of the collection and points it at this post,
     * unless `c` is already in the collection, in which case nothing changes
     * (not even `c.blog`). Adding twice is therefore the same as adding once
     * (AddIfAbsent(AddIfAbsent(s, c), c) == AddIfAbsent(s, c), since c is in
     * the result of the first), and a collection without duplicates keeps
     * none.
     */
    method AddComment(c: Comment) returns (r: Blog)
      modifies this`comments, c`blog
      ensures r == this
      ensures comments == AddIfAbsent(old(comments), c)
      ensures GetCommentCount() == old(GetCommentCount()) + (if c in old(comments) then 0 else 1)
      ensures c.blog == if c in old(comments) then old(c.blog) else this
      ensures old(NoDuplicates(comments)) ==> NoDuplicates(comments)
      ensures old(InSync()) ==> InSync()
    {
      if c !in comments {
        comments := comments + [c];
        var _ := c.SetBlog(this);
      }
      r := this;
    }

    /**
     * Drops the first occurrence of `c` from the collection, keeping the
     * order of the rest. Only when `c` was found AND still points at this
     * post is its back-reference cleared; a comment already moved to another
     * post keeps that post. An absent `c` changes nothing.
     */
    method RemoveComment(c: Comment) returns (r: Blog)
      modifies this`comments, c`blog
      ensures r == this
      ensures comments == RemoveFirst(old(comments), c)
      ensures GetCommentCount() == old(GetCommentCount()) - (if c in old(comments) then 1 else 0)
      ensures c.blog == if c in old(comments) && old(c.blog) == this then null else old(c.blog)
      ensures c in old(comments) && old(c.blog) == this ==> !c.FitsColumns()
      ensures old(NoDuplicates(comments)) ==> NoDuplicates(comments) && c !in comments
      ensures old(InSync() && NoDuplicates(comments)) ==> InSync()
    {
      ghost var before := comments;
      var removed := c in comments;
      comments := RemoveFirst(comments, c);
      if removed && c.GetBlog() == this {
        var _ := c.SetBlog(null);
      }
      r := this;
      if NoDuplicates(before) {
        RemoveFirstKeepsNoDuplicates(before, c);
        RemoveFirstFrom(before, c);
        assert forall d :: d in comments ==> d in before && d != c;
      }
    }

    /** The value of a validated property. */
    function Field(property: string): Option<string>
      reads this
    {
      if property == "title" then title
      else if property == "content" then content
      else if property == "author" then author
      else if property == "email" then email
      else if property == "description" then description
      else None
    }

    /**
     * The violations the validator reports for this post, property by
     * property: exactly the declared constraints that the property's value
     * breaks.
     */
    function Violations(isEmail: string -> bool): (r: seq<Violation>)
      reads this
      ensures forall v :: v in r <==>
        && v.property in BlogProperties
        && v.constraint in BlogRules(v.property)
        && !Satisfies(v.constraint, Field(v.property), isEmail)
    {
      CheckProperty("title", BlogRules("title"), title, isEmail)
      + CheckProperty("content", BlogRules("content"), content, isEmail)
      + CheckProperty("author", BlogRules("author"), author, isEmail)
      + CheckProperty("email", BlogRules("email"), email, isEmail)
      + CheckProperty("description", BlogRules("description"), description, isEmail)
    }

    /** The post passes validation: no violation is reported. */
    predicate IsValid(isEmail: string -> bool): (ok: bool)
      reads this
      ensures ok <==> forall p, k :: p in BlogProperties && k in BlogRules(p) ==> Satisfies(k, Field(p), isEmail)
    {
      BlogNoViolationsIff(this, isEmail);
      Violations(isEmail) == []
    }
  }

  class Comment {
    var id: Option<int>
    var content: Option<string>
    var createdAt: int
    var author: Option<string>
    var email: Option<string>
    var blog: Blog?

    /** A new comment: no id, no text fields, no post, dated `now` plus two hours. */
    constructor (now: int)
      ensures id == None && content == None && author == None && email == None
      ensures blog == null && !FitsColumns()
      ensures createdAt == now + CreatedAtOffset
    {
      id := None;
      content := None;
      author := None;
      email := None;
      blog := null;
      createdAt := now + CreatedAtOffset;
    }

    function GetId(): Option<int> reads this { id }
    function GetContent(): Option<string> reads this { content }
    function GetCreatedAt(): int reads this { createdAt }
    function GetAuthor(): Option<string> reads this { author }
    function GetEmail(): Option<string> reads this { email }
    function GetBlog(): Blog? reads this { blog }

    // As for the post, each setter's frame is the one field it overwrites;
    // none of them touches `id`, and there is no setter for it.

    method SetContent(content: string) returns (r: Comment)
      modifies this`content
      ensures GetContent() == Some(content) && r == this
    {
      this.content := Some(content);
      r := this;
    }

    method SetCreatedAt(createdAt: int) returns (r: Comment)
      modifies this`createdAt
      ensures GetCreatedAt() == createdAt && r == this
    {
      this.createdAt := createdAt;
      r := this;
    }

    method SetAuthor(author: string) returns (r: Comment)
      modifies this`author
      ensures GetAuthor() == Some(author) && r == this
    {
      this.author := Some(author);
      r := this;
    }

    method SetEmail(email: string) returns (r: Comment)
      modifies this`email
      ensures GetEmail() == Some(email) && r == this
    {
      this.email := Some(email);
      r := this;
    }

    /** Points the comment at `blog`, or detaches it when `blog` is null. */
    method SetBlog(blog: Blog?) returns (r: Comment)
      modifies this`blog
      ensures GetBlog() == blog && r == this
    {
      this.blog := blog;
      r := this;
    }

    /** The value of a validated property. */
    function Field(property: string): Option<string>
      reads this
    {
      if property == "content" then content
      else if property == "author" then author
      else if property == "email" then email
      else None
    }

    /**
     * The violations the validator reports for this comment: exactly the
     * declared constraints that a property's value breaks. The post
     * reference carries no validation constraint.
     */
    function Violations(isEmail: string -> bool): (r: seq<Violation>)
      reads this
      ensures forall v :: v in r <==>
        && v.property in CommentProperties
        && v.constraint in CommentRules(v.property)
        && !Satisfies(v.constraint, Field(v.property), isEmail)
    {
      CheckProperty("content", CommentRules("content"), content, isEmail)
      + CheckProperty("author", CommentRules("author"), author, isEmail)
      + CheckProperty("email", CommentRules("email"), email, isEmail)
    }

    /** The comment passes validation: no violation is reported. */
    predicate IsValid(isEmail: string -> bool): (ok: bool)
      reads this
      ensures ok <==> forall p, k :: p in CommentProperties && k in CommentRules(p) ==> Satisfies(k, Field(p), isEmail)
    {
      CommentNoViolationsIff(this, isEmail);
      Violations(isEmail) == []
    }

    /**
     * The storage columns accept the comment: content, author and e-mail
     * are not null (their columns are not nullable) and neither is the join
     * column to the post. Validity is not required here: the content
     * column accepts an empty string.
     */
    predicate FitsColumns()
      reads this
    {
      content.Some? && author.Some? && email.Some? && blog != null
    }
  }

  /** No violation is reported for a post exactly when it breaks no declared constraint. */
  lemma BlogNoViolationsIff(b: Blog, isEmail: string -> bool)
    ensures b.Violations(isEmail) == [] <==>
      forall p, k :: p in BlogProperties && k in BlogRules(p) ==> Satisfies(k, b.Field(p), isEmail)
  {
    var r := b.Violations(isEmail);
    if r != [] {
      assert r[0] in r;
    }
  }

  /** No violation is reported for a comment exactly when it breaks no declared constraint. */
  lemma CommentNoViolationsIff(c: Comment, isEmail: string -> bool)
    ensures c.Violations(isEmail) == [] <==>
      forall p, k :: p in CommentProperties && k in CommentRules(p) ==> Satisfies(k, c.Field(p), isEmail)
  {
    var r := c.Violations(isEmail);
    if r != [] {
      assert r[0] in r;
    }
  }

  /**
   * What the declared constraints of a post amount to: title, content,
   * author, email and description all present and non-empty; title, author
   * and description at most 255 characters; email well formed.
   */
  lemma BlogValidIff(b: Blog, isEmail: string -> bool)
    ensures b.IsValid(isEmail) <==>
      && !Blank(b.title) && |b.title.value| <= MaxFieldLength
      && !Blank(b.content)
      && !Blank(b.author) && |b.author.value| <= MaxFieldLength
      && !Blank(b.email) && isEmail(b.email.value)
      && !Blank(b.description) && |b.description.value| <= MaxFieldLength
  {
    BlogRulesMean(b, isEmail);
  }

  /** The declared rules of a post, written out field by field. */
  lemma BlogRulesMean(b: Blog, isEmail: string -> bool)
    ensures (forall p, k :: p in BlogProperties && k in BlogRules(p) ==> Satisfies(k, b.Field(p), isEmail)) <==>
      && !Blank(b.title) && |b.title.value| <= MaxFieldLength
      && !Blank(b.content)
      && !Blank(b.author) && |b.author.value| <= MaxFieldLength
      && !Blank(b.email) && isEmail(b.email.value)
      && !Blank(b.description) && |b.description.value| <= MaxFieldLength
  {
    var limit := MaxLength(MaxFieldLength);
    if forall p, k :: p in BlogProperties && k in BlogRules(p) ==> Satisfies(k, b.Field(p), isEmail) {
      assert BlogProperties[0] == "title" && BlogRules("title") == [NotBlank, limit];
      assert BlogProperties[1] == "content" && BlogRules("content") == [NotBlank];
      assert BlogProperties[2] == "author" && BlogRules("author") == [NotBlank, limit];
      assert BlogProperties[3] == "email" && BlogRules("email") == [NotBlank, EmailFormat];
      assert BlogProperties[4] == "description" && BlogRules("description") == [NotBlank, limit];
      assert Satisfies(NotBlank, b.Field("title"), isEmail) && Satisfies(limit, b.Field("title"), isEmail);
      assert Satisfies(NotBlank, b.Field("content"), isEmail);
      assert Satisfies(NotBlank, b.Field("author"), isEmail) && Satisfies(limit, b.Field("author"), isEmail);
      assert Satisfies(NotBlank, b.Field("email"), isEmail) && Satisfies(EmailFormat, b.Field("email"), isEmail);
      assert Satisfies(NotBlank, b.Field("description"), isEmail) && Satisfies(limit, b.Field("description"), isEmail);
    } else {
      var p, k :| p in BlogProperties && k in BlogRules(p) && !Satisfies(k, b.Field(p), isEmail);
      assert p == "title" || p == "content" || p == "author" || p == "email" || p == "description";
    }
  }

  /**
   * What the declared constraints of a comment amount to: content, author
   * and email present and non-empty, and email well formed.
   */
  lemma CommentValidIff(c: Comment, isEmail: string -> bool)
    ensures c.IsValid(isEmail) <==>
      !Blank(c.content) && !Blank(c.author) && !Blank(c.email) && isEmail(c.email.value)
  {
    if c.IsValid(isEmail) {
      assert forall p :: p in CommentProperties ==> forall k :: k in CommentRules(p) ==> Satisfies(k, c.Field(p), isEmail);
      assert CommentProperties[0] == "content" && CommentProperties[1] == "author" && CommentProperties[2] == "email";
    } else {
      var p, k :| p in CommentProperties && k in CommentRules(p) && !Satisfies(k, c.Field(p), isEmail);
      assert p == "content" || p == "author" || p == "email";
    }
  }

  /**
   * A comment that passes validation and has a post is accepted by the
   * storage columns; validation alone is not enough while the post is missing.
   */
  lemma ValidAttachedCommentFitsColumns(c: Comment, isEmail: string -> bool)
    requires c.IsValid(isEmail) && c.blog != null
    ensures c.FitsColumns()
  {
    CommentValidIff(c, isEmail);
  }
}
