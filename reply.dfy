/**
 * The line parser of the AI helper: it reads a title and a multi-line
 * description out of the generated text. The request and the JSON around
 * the text are not part of this model; the text is a plain input.
 */
module Reply {
  import opened Text

  const TitleFallback := "Could not extract title."
  const DescriptionFallback := "Could not extract description."

  /** A line whose lower-cased form starts with `title:`. */
  predicate IsTitleLine(line: string)
  {
    StartsWithIgnoringCase(line, "title:")
  }

  /** A line whose lower-cased form starts with `description:`. */
  predicate IsDescriptionLine(line: string)
  {
    StartsWithIgnoringCase(line, "description:")
  }

  /** The `title` and `description` variables of the parser. */
  datatype Draft = Draft(title: string, description: string)

  /**
   * One turn of the `forEach`: a title line sets the title to
   * `line.substring(7).trim()`, a description line resets the description to
   * `line.substring(12).trim()`, and any other line is appended as
   * `'\n' + line.trim()` once the description is non-empty.
   */
  function Step(d: Draft, line: string): Draft
  {
    if IsTitleLine(line) then d.(title := Trim(Drop(line, 7)))
    else if IsDescriptionLine(line) then d.(description := Trim(Drop(line, 12)))
    else if d.description != "" then d.(description := d.description + "\n" + Trim(line))
    else d
  }

  /** The variables after the `forEach` has visited `lines` in order, from empty strings. */
  function Scan(lines: seq<string>): Draft
  {
    if lines == [] then Draft("", "")
    else Step(Scan(lines[..|lines| - 1]), lines[|lines| - 1])
  }

  /** A falsy (empty) result is replaced by its fallback text. */
  function OrElse(s: string, fallback: string): string
  {
    if s == "" then fallback else s
  }

  /**
   * The title and the description the helper shows for the generated `text`:
   * the text is split at line feeds and scanned line by line.
   */
  method ParseReply(text: string) returns (title: string, description: string)
    ensures title == OrElse(Scan(Split(text, '\n')).title, TitleFallback)
    ensures description == OrElse(Scan(Split(text, '\n')).description, DescriptionFallback)
  {
    var lines := Split(text, '\n');
    title := "";
    description := "";
    var i := 0;
    while i < |lines|
      invariant 0 <= i <= |lines|
      invariant Draft(title, description) == Scan(lines[..i])
    {
      var line := lines[i];
      if StartsWithIgnoringCase(line, "title:") {
        title := Trim(Drop(line, 7));
      } else if StartsWithIgnoringCase(line, "description:") {
        description := Trim(Drop(line, 12));
      } else if description != "" {
        description := description + "\n" + Trim(line);
      }
      ScanPrefix(lines, i + 1);
      i := i + 1;
    }
    assert lines[..|lines|] == lines;
    if title == "" {
      title := TitleFallback;
    }
    if description == "" {
      description := DescriptionFallback;
    }
  }

  /** No line is both a title line and a description line. */
  lemma MarkersExclusive(line: string)
    ensures !(IsTitleLine(line) && IsDescriptionLine(line))
  {
    if IsTitleLine(line) {
      assert AsciiLower(line[0]) == 't';
    }
  }

  /** A scan of a non-empty list is a scan of all but its last line, then one step. */
  lemma ScanLast(lines: seq<string>)
    requires lines != []
    ensures Scan(lines) == Step(Scan(lines[..|lines| - 1]), lines[|lines| - 1])
  {
  }

  /** What one step does to the title. */
  lemma StepTitle(d: Draft, line: string)
    ensures Step(d, line).title == if IsTitleLine(line) then Trim(Drop(line, 7)) else d.title
  {
  }

  /** What one step does to the description. */
  lemma StepDescription(d: Draft, line: string)
    ensures Step(d, line).description ==
      if IsTitleLine(line) then d.description
      else if IsDescriptionLine(line) then Trim(Drop(line, 12))
      else if d.description != "" then d.description + "\n" + Trim(line)
      else d.description
  {
  }

  /** Without a title line the title stays empty. */
  lemma {:induction false} NoTitleLine(lines: seq<string>)
    requires forall j :: 0 <= j < |lines| ==> !IsTitleLine(lines[j])
    ensures Scan(lines).title == ""
  {
    if lines != [] {
      var n := |lines| - 1;
      var init := lines[..n];
      assert forall j :: 0 <= j < n ==> init[j] == lines[j];
      NoTitleLine(init);
      ScanLast(lines);
      StepTitle(Scan(init), lines[n]);
    }
  }

  /** The title is taken from the last title line alone, with the character after `title:` dropped. */
  lemma {:induction false} TitleFromLastTitleLine(lines: seq<string>, k: nat)
    requires k < |lines| && IsTitleLine(lines[k])
    requires forall j :: k < j < |lines| ==> !IsTitleLine(lines[j])
    ensures Scan(lines).title == Trim(Drop(lines[k], 7))
  {
    var n := |lines| - 1;
    var init := lines[..n];
    ScanLast(lines);
    StepTitle(Scan(init), lines[n]);
    if k < n {
      assert init[k] == lines[k];
      assert forall j :: k < j < n ==> init[j] == lines[j];
      TitleFromLastTitleLine(init, k);
    }
  }

  /** The lines after a description line that continue it: every non-title line, as a line feed and its trimmed text. */
  function Continuation(rest: seq<string>): string
  {
    if rest == [] then ""
    else
      var last := rest[|rest| - 1];
      Continuation(rest[..|rest| - 1]) + (if IsTitleLine(last) then "" else "\n" + Trim(last))
  }

  /** A scan of the first `n` lines is a scan of the first `n - 1`, then one step. */
  lemma ScanPrefix(lines: seq<string>, n: nat)
    requires 0 < n <= |lines|
    ensures Scan(lines[..n]) == Step(Scan(lines[..n - 1]), lines[n - 1])
  {
    assert lines[..n][..n - 1] == lines[..n - 1];
  }

  /** The continuation of the lines `k + 1 .. n` ends with the piece contributed by line `n - 1`. */
  lemma ContinuationPrefix(lines: seq<string>, k: nat, n: nat)
    requires k + 1 < n <= |lines|
    ensures Continuation(lines[k + 1..n]) == Continuation(lines[k + 1..n - 1])
      + (if IsTitleLine(lines[n - 1]) then "" else "\n" + Trim(lines[n - 1]))
  {
    var rest := lines[k + 1..n];
    assert rest[|rest| - 1] == lines[n - 1];
    assert rest[..|rest| - 1] == lines[k + 1..n - 1];
  }

  /** Appending one continuation piece to a description of the form `head + earlier`, if it is non-empty. */
  lemma AppendPiece(before: string, head: string, earlier: string, t: string)
    requires before == if head == "" then "" else head + earlier
    ensures (if before != "" then before + "\n" + t else before)
      == if head == "" then "" else head + (earlier + ("\n" + t))
  {
    if head != "" {
      assert head + earlier + "\n" + t == head + (earlier + ("\n" + t));
    }
  }

  /**
   * A line that is not a description line extends a description of the form
   * `head + earlier` by its continuation piece, and leaves an empty one empty.
   */
  lemma StepContinues(d: Draft, line: string, head: string, earlier: string)
    requires !IsDescriptionLine(line)
    requires d.description == if head == "" then "" else head + earlier
    ensures Step(d, line).description ==
      if head == "" then "" else head + (earlier + (if IsTitleLine(line) then "" else "\n" + Trim(line)))
  {
    StepDescription(d, line);
    if IsTitleLine(line) {
      assert earlier + "" == earlier;
    } else {
      AppendPiece(d.description, head, earlier, Trim(line));
    }
  }

  /** A description line sets the description to its trimmed text after `description:`. */
  lemma DescriptionLineResets(lines: seq<string>, k: nat)
    requires k < |lines| && IsDescriptionLine(lines[k])
    ensures Scan(lines[..k + 1]).description == Trim(Drop(lines[k], 12))
  {
    ScanPrefix(lines, k + 1);
    StepDescription(Scan(lines[..k]), lines[k]);
    MarkersExclusive(lines[k]);
  }

  /** One more line that is not a description line extends the description by its continuation piece. */
  lemma DescriptionGrows(lines: seq<string>, k: nat, n: nat, head: string)
    requires k + 1 < n <= |lines| && !IsDescriptionLine(lines[n - 1])
    requires Scan(lines[..n - 1]).description == if head == "" then "" else head + Continuation(lines[k + 1..n - 1])
    ensures Scan(lines[..n]).description == if head == "" then "" else head + Continuation(lines[k + 1..n])
  {
    var line := lines[n - 1];
    var earlier := Continuation(lines[k + 1..n - 1]);
    calc {
      Scan(lines[..n]).description;
    == { ScanPrefix(lines, n); }
      Step(Scan(lines[..n - 1]), line).description;
    == { StepContinues(Scan(lines[..n - 1]), line, head, earlier); }
      if head == "" then "" else head + (earlier + (if IsTitleLine(line) then "" else "\n" + Trim(line)));
    == { ContinuationPrefix(lines, k, n); }
      if head == "" then "" else head + Continuation(lines[k + 1..n]);
    }
  }
  /** None of `rest` is a description line. */
  predicate Plain(rest: seq<string>)
  {
    rest == [] || (!IsDescriptionLine(rest[|rest| - 1]) && Plain(rest[..|rest| - 1]))
  }

  /** `Plain` holds of the lines between `k` and `n` when none of them is a description line. */
  lemma {:induction false} PlainBetween(lines: seq<string>, k: nat, n: nat)
    requires k < n <= |lines|
    requires forall j :: k < j < n ==> !IsDescriptionLine(lines[j])
    ensures Plain(lines[k + 1..n])
    decreases n
  {
    if n > k + 1 {
      PlainBetween(lines, k, n - 1);
      assert lines[k + 1..n][..n - k - 2] == lines[k + 1..n - 1];
    }
  }

  /** The last of the plain lines between `k` and `n` is no description line, and those before it are plain. */
  lemma PlainLast(lines: seq<string>, k: nat, n: nat)
    requires k + 1 < n <= |lines| && Plain(lines[k + 1..n])
    ensures !IsDescriptionLine(lines[n - 1]) && Plain(lines[k + 1..n - 1])
  {
    assert lines[k + 1..n][..n - k - 2] == lines[k + 1..n - 1];
  }

  /** The description after the first `n` lines, where line `k` is the last description line among them. */
  lemma {:induction false} DescriptionUpTo(lines: seq<string>, k: nat, n: nat)
    requires k < n <= |lines| && IsDescriptionLine(lines[k])
    requires Plain(lines[k + 1..n])
    ensures var head := Trim(Drop(lines[k], 12));
      Scan(lines[..n]).description == if head == "" then "" else head + Continuation(lines[k + 1..n])
    decreases n
  {
    if n == k + 1 {
      DescriptionLineResets(lines, k);
      assert lines[k + 1..n] == [];
    } else {
      PlainLast(lines, k, n);
      DescriptionUpTo(lines, k, n - 1);
      DescriptionGrows(lines, k, n, Trim(Drop(lines[k], 12)));
    }
  }

  /**
   * The description comes from the last description line: its trimmed text
   * after `description:`, continued by every later non-title line, unless
   * that text is empty, in which case the later lines are dropped too.
   */
  lemma DescriptionFromLastDescriptionLine(lines: seq<string>, k: nat)
    requires k < |lines| && IsDescriptionLine(lines[k])
    requires forall j :: k < j < |lines| ==> !IsDescriptionLine(lines[j])
    ensures var head := Trim(Drop(lines[k], 12));
      Scan(lines).description == if head == "" then "" else head + Continuation(lines[k + 1..])
  {
    PlainBetween(lines, k, |lines|);
    DescriptionUpTo(lines, k, |lines|);
    assert lines[..|lines|] == lines;
    assert lines[k + 1..|lines|] == lines[k + 1..];
  }

  /** Before any description line, other lines are dropped: without one the description stays empty. */
  lemma {:induction false} NoDescriptionLine(lines: seq<string>)
    requires forall j :: 0 <= j < |lines| ==> !IsDescriptionLine(lines[j])
    ensures Scan(lines).description == ""
  {
    if lines != [] {
      var n := |lines| - 1;
      var init := lines[..n];
      assert forall j :: 0 <= j < n ==> init[j] == lines[j];
      NoDescriptionLine(init);
      ScanLast(lines);
      StepDescription(Scan(init), lines[n]);
    }
  }

  /**
   * The title is cut seven characters in although `title:` has six: the
   * character right after the colon is dropped whatever it is, which is
   * harmless for the `Title: ` form the prompt asks for.
   */
  lemma TitleSkipsCharacterAfterColon(c: char, rest: string)
    ensures Scan(["title:" + [c] + rest]).title == Trim(rest)
  {
    var line := "title:" + [c] + rest;
    assert forall k :: 0 <= k < 6 ==> line[k] == "title:"[k];
    assert IsTitleLine(line);
    assert Drop(line, 7) == rest;
    ScanLast([line]);
    assert [line][..0] == [];
    StepTitle(Draft("", ""), line);
  }
}
