/** The wire entity shared by client and server, and its `Display` rendering. */
module Proto {

  /** A note as carried in replies: an opaque id, a one-line title and a body. */
  datatype Note = Note(id: string, title: string, content: string)

  /** The separator `Display` puts between title and content. */
  const TitleSeparator: string := ": "

  /** `Display for Note`: the title, a colon and a space, then the content; the id is not shown. */
  function Render(n: Note): (r: string)
    ensures |r| == |n.title| + 2 + |n.content|
    ensures r[..|n.title|] == n.title
    ensures r[|n.title|..|n.title| + 2] == ": "
    ensures r[|n.title| + 2..] == n.content
  {
    n.title + TitleSeparator + n.content
  }

  /** Reference characterisation: a string is the rendering of a note exactly when it is
      the note's title, then ": ", then the note's content. */
  lemma RenderCharacterised(n: Note, s: string)
    ensures s == Render(n) <==>
              (|s| == |n.title| + 2 + |n.content|
               && s[..|n.title|] == n.title
               && s[|n.title|..|n.title| + 2] == ": "
               && s[|n.title| + 2..] == n.content)
  {
  }

  /** The id plays no part in the rendering. */
  lemma RenderIgnoresId(a: Note, b: Note)
    requires a.title == b.title && a.content == b.content
    ensures Render(a) == Render(b)
  {
  }

  /** Two notes render alike when their titles have the same length and all other text agrees;
      in particular, among titles of one length, the rendering determines title and content. */
  lemma RenderDeterminesParts(a: Note, b: Note)
    requires |a.title| == |b.title|
    requires Render(a) == Render(b)
    ensures a.title == b.title && a.content == b.content
  {
  }
}
