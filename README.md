# Blog post and comment entities, in Dafny

A model of the domain core of a small blog site: the `Blog` (post) and
`Comment` entities, and how a post keeps its comments. The two entities are
Dafny classes that point at each other:

- a `Blog` holds an id, a title, content, a creation time, an author, an
  e-mail address, a description, and an ordered collection of comments
  (`comments: seq<Comment>`);
- a `Comment` holds an id, content, a creation time, an author, an e-mail
  address and a nullable reference to its post (`blog: Blog?`), which is the
  owning side of the association.

Every setter is a method whose frame is the one field it overwrites
(`modifies this`title`), so "the setter changes exactly that field" is part
of its contract; getters are functions that read the object. The two
relationship operations of a post, `AddComment` and `RemoveComment`, are
specified against pure functions on sequences (`Collection.AddIfAbsent`,
`Collection.RemoveFirst`) that give the collection's semantics: membership
and removal by object identity, removal of the first occurrence only,
insertion order kept. The properties of those functions (no duplicates
kept, idempotent add, order kept on removal, add-then-remove round trip) are
lemmas. Both operations are also proved to keep the association in sync:
when every comment of a post points back at it before the call, it still
does afterwards (for removal, provided the collection has no duplicates).

The declared validation constraints (NotBlank, Length(max: 255), Email) are a
datatype, and each entity's `Violations` lists the field-level errors a
validator reports: exactly the declared constraints the field values break.
Lemmas state what validity of each entity amounts to.

Time is an integer number of seconds supplied by the caller; both
constructors date the entity `now + 7200` (two hours later).

A comment's post reference is declared not nullable for storage
(src/Entity/Comment.php:35), but it is nullable in memory: a new comment has
none, and removing a comment from its post sets it to null. The predicate
`Entity.Comment.FitsColumns` states what the storage columns demand (content,
author, e-mail and post present; an empty string is accepted); validation is a
separate check, made before saving. The description of a
post is nullable in storage and its setter accepts null, but validation
requires it to be non-blank. The model keeps both: `SetDescription` takes an
`Option`, and `BlogValidIff` requires a non-blank description.

Files: `wrappers.dfy` (Option), `collection.dfy` (comment collection
semantics), `validation.dfy` (constraints), `entity.dfy` (the two classes),
`scenarios.dfy` (client code: the repository's two entity tests and two
add/remove life cycles).

## Model

| member | source | states |
|---|---|---|
| `Collection.IndexOf` | src/Entity/Blog.php:234 | the index found is a position holding the comment, and no earlier position holds it (the first occurrence, compared by identity) |
| `Collection.AddIfAbsent` | src/Entity/Blog.php:219-220 | the comment is in the result; the old collection is an unchanged prefix; the length grows by one exactly when the comment was absent, and the new last entry is that comment; a collection without duplicates keeps none |
| `Collection.AddIfAbsentIdempotent` | src/Entity/Blog.php:217-224 | adding the same comment twice gives the same collection as adding it once |
| `Collection.RemoveFirst` | src/Entity/Blog.php:234 | an absent comment leaves the collection unchanged; a present one shortens it by one; as a multiset, exactly one copy of the comment is taken away and nothing else |
| `Collection.RemoveFirstAtIndex` | src/Entity/Blog.php:234 | removing a present comment equals searching for its first position and unsetting that one entry |
| `Collection.Without` | src/Entity/Blog.php:234 | reference definition of "every other comment": its body keeps the survivors in their original order; its contract says no entry is the removed comment, every entry comes from the input, and every other input entry survives |
| `Collection.RemoveFirstKeepsOrder` | src/Entity/Blog.php:234 | on a collection without duplicates, removal equals filtering the comment out, so the remaining comments keep their relative order |
| `Collection.RemoveFirstKeepsNoDuplicates` | src/Entity/Blog.php:232-241 | after removal from a collection without duplicates the comment is gone entirely and there are still no duplicates |
| `Collection.AddThenRemove` | src/Entity/Blog.php:217-241 | removing a comment right after adding a comment that was absent restores the original collection |
| `Validation.CheckProperty` | src/Entity/Blog.php:19-44 | every reported violation names the property and a declared constraint the value breaks, and every broken declared constraint is reported |
| `Validation.PassesIffSatisfiesAll` | src/Entity/Comment.php:18-32 | a property reports no violation exactly when its value meets every declared constraint |
| `Entity.Blog.constructor` | src/Entity/Blog.php:53-57 | a new post has no id, no text fields, an empty comment collection, and creation time equal to the supplied clock plus two hours |
| `Entity.Blog.SetTitle` | src/Entity/Blog.php:85-89 | the getter returns the title set; only the title field may change; the post itself is returned |
| `Entity.Blog.SetContent` | src/Entity/Blog.php:107-111 | the getter returns the content set; only the content field may change |
| `Entity.Blog.SetCreatedAt` | src/Entity/Blog.php:129-133 | the getter returns the time set; only the creation time may change |
| `Entity.Blog.SetAuthor` | src/Entity/Blog.php:151-155 | the getter returns the author set; only the author field may change |
| `Entity.Blog.SetEmail` | src/Entity/Blog.php:173-177 | the getter returns the address set; only the e-mail field may change |
| `Entity.Blog.SetDescription` | src/Entity/Blog.php:195-199 | accepts null as well as a string; the getter returns exactly what was set; only the description may change |
| `Entity.Blog.AddComment` | src/Entity/Blog.php:217-224 | an absent comment is appended and pointed at this post and the count grows by one; a present comment changes nothing, not even its post reference; no duplicates and the back-reference invariant are preserved |
| `Entity.Blog.RemoveComment` | src/Entity/Blog.php:232-241 | the first occurrence is removed and the count drops by one when present; the post reference is cleared only when the comment was present and still pointed at this post, after which the comment no longer fits the not-null post column, and is otherwise untouched; an absent comment changes nothing; with no duplicates, the comment is gone and the back-reference invariant is preserved |
| `Entity.Blog.GetComments` | src/Entity/Blog.php:206-209 | the collection returned has as many entries as the comment count reports |
| `Entity.Blog.GetCommentCount` | src/Entity/Blog.php:248-251 | the count is zero exactly when the post has no comments, and on a collection without duplicates it is the number of distinct comments |
| `Entity.Blog.InSync` | src/Entity/Blog.php:217-241 | the back-reference invariant kept by adding and removing (every comment of the post points back at it) holds trivially for a post without comments |
| `Entity.Blog.Violations` | src/Entity/Blog.php:19-44 | a violation is reported exactly when it names a declared property of a post and a constraint declared on it that the property's value breaks |
| `Entity.Blog.IsValid` | src/Entity/Blog.php:19-44 | a post is valid exactly when every declared constraint of every property holds |
| `Entity.BlogNoViolationsIff` | src/Entity/Blog.php:19-44 | no violation is reported exactly when no declared constraint is broken |
| `Entity.BlogRulesMean` | src/Entity/Blog.php:19-44 | the declared constraints of a post hold exactly when the five fields are non-blank, three are at most 255 characters and the e-mail is well formed |
| `Entity.BlogValidIff` | src/Entity/Blog.php:19-44 | a post is valid exactly when title, content, author, e-mail and description are non-blank, title, author and description are at most 255 characters, and the e-mail is well formed |
| `Entity.Comment.constructor` | src/Entity/Comment.php:42-45 | a new comment has no id, content, author, e-mail or post, so it does not fit the storage columns until it is given a post, and its creation time equals the supplied clock plus two hours |
| `Entity.Comment.SetContent` | src/Entity/Comment.php:73-77 | the getter returns the content set; only the content field may change (never the id) |
| `Entity.Comment.SetCreatedAt` | src/Entity/Comment.php:95-99 | the getter returns the time set; only the creation time may change |
| `Entity.Comment.SetAuthor` | src/Entity/Comment.php:117-121 | the getter returns the author set; only the author field may change |
| `Entity.Comment.SetEmail` | src/Entity/Comment.php:139-143 | the getter returns the address set; only the e-mail field may change |
| `Entity.Comment.SetBlog` | src/Entity/Comment.php:161-165 | the getter returns the post set, null included; only the post reference may change |
| `Entity.Comment.Violations` | src/Entity/Comment.php:18-32 | a violation is reported exactly when it names a declared property of a comment and a constraint declared on it that the property's value breaks |
| `Entity.Comment.IsValid` | src/Entity/Comment.php:18-32 | a comment is valid exactly when every declared constraint of every property holds |
| `Entity.CommentNoViolationsIff` | src/Entity/Comment.php:18-32 | no violation is reported exactly when no declared constraint is broken |
| `Entity.CommentValidIff` | src/Entity/Comment.php:18-32 | a comment is valid exactly when content, author and e-mail are non-blank and the e-mail is well formed |
| `Entity.ValidAttachedCommentFitsColumns` | src/Entity/Comment.php:18-36 | a valid comment that has a post satisfies every not-null storage column |
| `Scenarios.BlogTest` | tests/Entity/BlogTest.php:11-25 | after setting each field of a new post, every getter returns the value set, and id, count and creation time are those of a new post |
| `Scenarios.CommentTest` | tests/Entity/CommentTest.php:11-35 | after setting content, author, e-mail and post of a new comment, every getter returns the value set and the id is still null |
| `Scenarios.AddTwiceThenRemove` | src/Entity/Blog.php:217-241 | adding a comment twice stores it once; removing it leaves the post empty and the comment detached |
| `Scenarios.RemoveMovedComment` | src/Entity/Blog.php:232-241 | a comment pointed at a second post before removal from the first keeps the second post, while the first post's collection becomes empty |

## Left out

- Controller actions (listing, showing, creating posts and comments): HTTP routing, form handling, rendering and redirects belong to the web framework.
- Pagination (10 posts or 5 comments per page): done by an external paginator library, with no paging logic in the repository.
- Repository queries (fetching a post with its comments, comments ordered by creation time descending): built with the ORM's query builder and executed by the database.
- Id generation: ids are assigned by the storage layer on first save; the model only shows that no operation sets them.
- Orphan removal (a comment detached from its post is deleted on save) and the not-nullable columns: storage configuration. `Entity.Comment.FitsColumns` states the column rules as a predicate; nothing in the model enforces them.
- Column lengths enforced by the database (255 characters for the e-mail of a post and the author and e-mail of a comment): not validation constraints, so they are not in `Violations`.
- E-mail address syntax: decided by the validator library, so it is the parameter `isEmail` of every validity predicate.
- Dates and time zones: time is an integer clock value supplied by the caller; the "+2 hours" is `+ 7200`. Because both constructors always set the creation time and its setter takes a non-null value, it is an `int` rather than a nullable field.
- The live collection returned by the comments getter: `GetComments` is a read-only view, so changes made through the returned collection, which bypass the duplicate guard and the back-reference updates, are not modelled.
- Fluent returns: each setter returns the object itself (`r == this`); chaining is otherwise not modelled.
