/**
 * The two strings `save_sequence` computes before touching the disk: the
 * suggested file name and the text written to the file. `ReadSaved` splits a
 * saved text back into information text and sequence, and is the partner of
 * `SaveText`.
 */
module SaveFormat {
  import opened Strings
  import opened Optional

  const FilenameSuffix := "_sequence.fasta"
  const InfoHeader := "# Protein Information: \n# "

  /** The suggested name: the stripped protein name with each space made '_', then "_sequence.fasta". */
  function DefaultFilename(proteinEntry: string): (r: string)
    ensures ' ' !in r
    ensures var name := Strip(proteinEntry);
            |r| == |name| + |FilenameSuffix| && r[|name|..] == FilenameSuffix
            && forall i :: 0 <= i < |name| ==> r[i] == (if name[i] == ' ' then '_' else name[i])
  {
    SpacesReplaced(Strip(proteinEntry));
    ReplaceChar(Strip(proteinEntry), ' ', "_") + FilenameSuffix
  }

  lemma SpacesReplaced(name: string)
    ensures var r := ReplaceChar(name, ' ', "_") + FilenameSuffix;
            ' ' !in r && |r| == |name| + |FilenameSuffix| && r[|name|..] == FilenameSuffix
            && forall i :: 0 <= i < |name| ==> r[i] == (if name[i] == ' ' then '_' else name[i])
  {
    var replaced := ReplaceChar(name, ' ', "_");
    assert ' ' !in "_" && |"_"| == 1;
    assert ' ' !in FilenameSuffix by {
      forall i | 0 <= i < |FilenameSuffix| ensures FilenameSuffix[i] != ' ' { }
    }
    var r := replaced + FilenameSuffix;
    assert r[|name|..] == FilenameSuffix;
  }

  /** The information text as written: a '#' after every newline, so each of its lines is a comment. */
  function CommentOut(info: string): string {
    ReplaceChar(info, '\n', "\n#")
  }

  /** The whole file: the header, the commented information, a blank line, then the sequence verbatim. */
  function SaveText(info: string, sequence: string): string {
    InfoHeader + CommentOut(info) + "\n\n" + sequence
  }

  /** Every newline in `s` is followed by '#' (so `s` holds no blank line and does not end in a newline). */
  predicate NewlinesCommented(s: string) {
    forall i :: 0 <= i < |s| && s[i] == '\n' ==> i + 1 < |s| && s[i + 1] == '#'
  }

  /** What comes before the first blank line ("\n\n") of `text`, and what comes after it. */
  function SplitAtBlankLine(text: string): Option<(string, string)> {
    if |text| < 2 then None
    else if text[0] == '\n' && text[1] == '\n' then Some(([], text[2..]))
    else match SplitAtBlankLine(text[1..])
      case None => None
      case Some((head, body)) => Some(([text[0]] + head, body))
  }

  /** Undoes `CommentOut`: every "\n#" becomes "\n". */
  function Uncomment(s: string): string {
    if s == [] then []
    else if |s| >= 2 && s[0] == '\n' && s[1] == '#' then "\n" + Uncomment(s[2..])
    else [s[0]] + Uncomment(s[1..])
  }

  /** Reads a saved file back: the information text and the sequence, or None when it is not in this layout. */
  function ReadSaved(text: string): Option<(string, string)> {
    match SplitAtBlankLine(text)
    case None => None
    case Some((head, body)) =>
      if |head| >= |InfoHeader| && head[..|InfoHeader|] == InfoHeader
      then Some((Uncomment(head[|InfoHeader|..]), body))
      else None
  }

  lemma {:induction false} CommentOutCommented(info: string)
    ensures NewlinesCommented(CommentOut(info))
  {
    if info != [] {
      CommentOutCommented(info[1..]);
      var first := if info[0] == '\n' then "\n#" else [info[0]];
      assert CommentOut(info) == first + CommentOut(info[1..]);
      CommentedConcat(first, CommentOut(info[1..]));
    }
  }

  lemma CommentedConcat(a: string, b: string)
    requires NewlinesCommented(a) && NewlinesCommented(b)
    ensures NewlinesCommented(a + b)
  {
    forall i | 0 <= i < |a + b| && (a + b)[i] == '\n'
      ensures i + 1 < |a + b| && (a + b)[i + 1] == '#'
    {
      if i >= |a| {
        assert b[i - |a|] == '\n';
      }
    }
  }

  lemma {:induction false} UncommentCommentOut(info: string)
    ensures Uncomment(CommentOut(info)) == info
  {
    if info != [] {
      UncommentCommentOut(info[1..]);
      var rest := CommentOut(info[1..]);
      if info[0] == '\n' {
        assert CommentOut(info) == "\n#" + rest;
        assert ("\n#" + rest)[2..] == rest;
      } else {
        assert CommentOut(info) == [info[0]] + rest;
        assert ([info[0]] + rest)[1..] == rest;
      }
    }
  }

  lemma {:induction false} SplitAfterCommented(head: string, body: string)
    requires NewlinesCommented(head)
    ensures SplitAtBlankLine(head + "\n\n" + body) == Some((head, body))
  {
    var text := head + "\n\n" + body;
    if head == [] {
      assert text[2..] == body;
    } else {
      assert text[1..] == head[1..] + "\n\n" + body;
      assert head[0] == '\n' ==> |head| > 1 && text[1] == head[1] == '#';
      assert NewlinesCommented(head[1..]) by {
        forall i | 0 <= i < |head[1..]| && head[1..][i] == '\n'
          ensures i + 1 < |head[1..]| && head[1..][i + 1] == '#'
        {
          assert head[i + 1] == '\n';
        }
      }
      SplitAfterCommented(head[1..], body);
      assert [head[0]] + head[1..] == head;
    }
  }

  /**
   * Whatever the information text holds, reading a saved file gives back the
   * information text and the sequence exactly: the header's blank line is the
   * first one in the file, so the sequence that follows is verbatim.
   */
  lemma SaveRoundTrip(info: string, sequence: string)
    ensures ReadSaved(SaveText(info, sequence)) == Some((info, sequence))
  {
    var head := InfoHeader + CommentOut(info);
    assert NewlinesCommented(InfoHeader);
    CommentOutCommented(info);
    CommentedConcat(InfoHeader, CommentOut(info));
    SplitAfterCommented(head, sequence);
    assert head[..|InfoHeader|] == InfoHeader;
    assert head[|InfoHeader|..] == CommentOut(info);
    UncommentCommentOut(info);
  }
}
