/**
 * Client code that uses the entities only through their contracts: the
 * two entity test cases of the repository, and the add/remove life cycle
 * of a comment, including a comment that was moved to another post before
 * being removed from the first.
 */
module Scenarios {
  import opened Wrappers
  import opened Entity

  /** The post test case: every setter is read back through its getter. */
  method BlogTest(now: int) returns (b: Blog)
    ensures b.GetTitle() == Some("Test Title")
    ensures b.GetDescription() == Some("Test description")
    ensures b.GetContent() == Some("Test Content")
    ensures b.GetAuthor() == Some("Test Author")
    ensures b.GetEmail() == Some("author@test.com")
    ensures b.GetId() == None && b.GetCommentCount() == 0
    ensures b.GetCreatedAt() == now + CreatedAtOffset
  {
    b := new Blog(now);
    var _ := b.SetTitle("Test Title");
    var _ := b.SetDescription(Some("Test description"));
    var _ := b.SetContent("Test Content");
    var _ := b.SetAuthor("Test Author");
    var _ := b.SetEmail("author@test.com");
  }

  /** The comment test case, ending with the comment attached to a new post. */
  method CommentTest(now: int) returns (c: Comment, b: Blog)
    ensures c.GetContent() == Some("This is a comment")
    ensures c.GetAuthor() == Some("John Doe")
    ensures c.GetEmail() == Some("johndoe@example.com")
    ensures c.GetBlog() == b
    ensures c.GetId() == None
  {
    c := new Comment(now);
    var _ := c.SetContent("This is a comment");
    var _ := c.SetAuthor("John Doe");
    var _ := c.SetEmail("johndoe@example.com");
    b := new Blog(now);
    var _ := c.SetBlog(b);
  }

  /**
   * Adding a comment twice stores it once; removing it empties the post
   * again and detaches the comment.
   */
  method AddTwiceThenRemove(now: int) returns (b: Blog, c: Comment)
    ensures b.GetComments() == [] && b.GetCommentCount() == 0
    ensures c.GetBlog() == null
  {
    b := new Blog(now);
    c := new Comment(now);
    var _ := b.AddComment(c);
    assert b.comments == [c] && c.blog == b;
    var _ := b.AddComment(c);
    assert b.comments == [c] && c.blog == b;
    var _ := b.RemoveComment(c);
  }

  /**
   * A comment re-pointed at another post before being removed from the
   * first keeps its new post: only the first post's collection changes.
   */
  method RemoveMovedComment(now: int) returns (first: Blog, second: Blog, c: Comment)
    ensures first.GetComments() == []
    ensures c.GetBlog() == second && second != first
  {
    first := new Blog(now);
    second := new Blog(now);
    c := new Comment(now);
    var _ := first.AddComment(c);
    assert first.comments == [c];
    var _ := c.SetBlog(second);
    assert first.comments == [c] && c.blog != first;
    var _ := first.RemoveComment(c);
  }
}
