/**
 * The clients section: a card per client with the name's initials and a
 * one-sentence preview, and a modal that lays the full description out as
 * paragraphs and bullet points.
 */
module Clients {
  import opened Wrappers
  import opened JsString
  import opened SiteContent

  // ----- initials -----

  /** `w[0]` joined into a string: the first character, or nothing for an empty word (`undefined` joins as ""). */
  function FirstChar(w: string): (r: string)
    ensures |r| <= 1
    ensures r == [] <==> w == []
    ensures r != [] ==> r[0] == w[0]
  {
    if w == [] then "" else [w[0]]
  }

  /** `name.split(' ').slice(0, 2).map(w => w[0]).join('')`. */
  function Initials(name: string): string
  {
    var words := Split(name, ' ');
    FirstChar(words[0]) + (if |words| > 1 then FirstChar(words[1]) else "")
  }

  /** There are at most two initials, none of them a space, each a character of the name. */
  lemma InitialsShape(name: string)
    ensures |Initials(name)| <= 2
    ensures forall k :: 0 <= k < |Initials(name)| ==> Initials(name)[k] != ' ' && Initials(name)[k] in name
  {
    var words := Split(name, ' ');
    InWord(name, words, 0);
    if |words| > 1 {
      InWord(name, words, 1);
    }
  }

  /** A character of one of the pieces is a character of the whole. */
  lemma {:induction false} InWord(name: string, words: seq<string>, j: nat)
    requires words == Split(name, ' ')
    requires j < |words|
    ensures forall c :: c in words[j] ==> c in name
  {
    JoinContains(words, ' ', j);
  }

  /** Each piece of a join occurs in the joined string. */
  lemma {:induction false} JoinContains(parts: seq<string>, sep: char, j: nat)
    requires j < |parts|
    ensures forall c :: c in parts[j] ==> c in Join(parts, sep)
  {
    if |parts| > 1 {
      var rest := Join(parts[1..], sep);
      assert Join(parts, sep) == parts[0] + [sep] + rest;
      if j == 0 {
        forall c | c in parts[0] ensures c in Join(parts, sep) {
          var k :| 0 <= k < |parts[0]| && parts[0][k] == c;
          assert Join(parts, sep)[k] == c;
        }
      } else {
        JoinContains(parts[1..], sep, j - 1);
        forall c | c in parts[j] ensures c in Join(parts, sep) {
          assert c in rest;
          var k :| 0 <= k < |rest| && rest[k] == c;
          assert Join(parts, sep)[|parts[0]| + 1 + k] == c;
        }
      }
    }
  }

  /** A one-word name gives its first letter. */
  lemma OneWordInitial(name: string)
    requires name != [] && ' ' !in name
    ensures Initials(name) == [name[0]]
  {
  }

  /** A name of a word, a space and more gives the first letters of the first two words. */
  lemma TwoWordInitials(w1: string, w2: string, rest: string)
    requires w1 != [] && w2 != [] && ' ' !in w1 && ' ' !in w2
    ensures Initials(w1 + [' '] + w2 + rest) == [w1[0], w2[0]]
  {
    var name := w1 + [' '] + w2 + rest;
    var words := Split(name, ' ');
    SplitPrefixWord(name, w1);
    var tail := w2 + rest;
    assert name == w1 + [' '] + tail;
    SplitAfterWord(w1, tail);
    assert words[1] == Split(tail, ' ')[0];
    SplitHead(tail, ' ');
    assert tail[0] == w2[0] && w2[0] != ' ';
    assert Split(tail, ' ')[0] != [];
    assert Split(tail, ' ')[0][0] == tail[0] == w2[0];
  }

  /** The first piece of `w + " " + t` for a space-free `w` is `w`. */
  lemma {:induction false} SplitPrefixWord(name: string, w: string)
    requires ' ' !in w
    requires |name| > |w| && name[..|w|] == w && name[|w|] == ' '
    ensures Split(name, ' ')[0] == w
  {
    SplitHead(name, ' ');
  }

  /** Splitting `w + " " + t` for a space-free `w` gives `w` followed by the pieces of `t`. */
  lemma {:induction false} SplitAfterWord(w: string, t: string)
    requires ' ' !in w
    ensures Split(w + [' '] + t, ' ') == [w] + Split(t, ' ')
    decreases |w|
  {
    var s := w + [' '] + t;
    if w == [] {
      assert s == [' '] + t;
      assert s[1..] == t;
    } else {
      assert s[1..] == w[1..] + [' '] + t;
      assert ' ' !in w[1..] by { assert forall k :: 0 <= k < |w[1..]| ==> w[1..][k] == w[k + 1]; }
      SplitAfterWord(w[1..], t);
      SplitStep(s, ' ');
      assert [w[0]] + w[1..] == w;
    }
  }

  /** The site's two clients: "DRFHE" gives "D" and "District Women Health" gives "DW". */
  lemma SiteInitials()
    ensures Initials("DRFHE") == "D"
    ensures Initials("District Women Health") == "DW"
  {
    OneWordInitial("DRFHE");
    SecondClientInitials();
  }

  lemma SecondClientInitials()
    ensures Initials("District Women Health") == "DW"
  {
    assert "District Women Health" == "District" + [' '] + "Women" + " Health";
    TwoWordInitials("District", "Women", " Health");
  }

  // ----- preview -----

  /** `description.split('.')[0] + "."`: the text before the first period, with a period. */
  function Preview(description: string): string
  {
    Split(description, '.')[0] + "."
  }

  /**
   * The preview is the text up to the first period followed by a period:
   * when the description has a period it is exactly the description's first
   * sentence with its period; without one it is the whole description plus
   * a period.
   */
  lemma PreviewIsFirstSentence(description: string)
    ensures '.' !in description ==> Preview(description) == description + "."
    ensures '.' in description ==>
      exists k :: 0 <= k < |description| && description[k] == '.' && '.' !in description[..k]
        && Preview(description) == description[..k + 1]
  {
    var head := Split(description, '.')[0];
    SplitHead(description, '.');
    if '.' in description {
      var k := |head|;
      assert description[..k] == head;
      assert description[..k + 1] == head + ".";
    }
  }

  // ----- the modal's paragraphs -----

  /** The bullet character the descriptions use. */
  const BulletMark: char := '•'

  /** A laid-out paragraph. */
  datatype Paragraph = Plain(text: string) | Bullet(text: string)

  /** One line of the description: blank lines vanish, bullet lines lose the mark and surrounding whitespace, others stay as they are. */
  function LayLine(line: string): Option<Paragraph>
  {
    if Trim(line) == [] then None
    else if StartsWith(line, BulletMark) then Some(Bullet(Trim(line[1..])))
    else Some(Plain(line))
  }

  /** The mapped lines, keeping order and dropping the vanished ones. */
  function LayLines(lines: seq<string>): seq<Paragraph>
  {
    if lines == [] then []
    else match LayLine(lines[0])
      case None => LayLines(lines[1..])
      case Some(p) => [p] + LayLines(lines[1..])
  }

  /** The modal's description: `description.split('\n')`, each line laid out. */
  function Paragraphs(description: string): seq<Paragraph>
  {
    LayLines(Split(description, '\n'))
  }

  /** A line vanishes exactly when it is blank. */
  lemma LayLineDropsExactlyBlank(line: string)
    ensures LayLine(line).None? <==> IsBlank(line)
  {
    TrimEmptyIffBlank(line);
  }

  /** A bullet's text is the rest of its line without surrounding whitespace. */
  lemma BulletText(line: string)
    requires LayLine(line).Some? && LayLine(line).value.Bullet?
    ensures StartsWith(line, BulletMark)
    ensures var t := LayLine(line).value.text;
      exists i, j :: 1 <= i <= j <= |line| && t == line[i..j] && IsBlank(line[1..i]) && IsBlank(line[j..])
    ensures var t := LayLine(line).value.text;
      t == [] || (!IsWhitespace(t[0]) && !IsWhitespace(t[|t| - 1]))
  {
    var t := LayLine(line).value.text;
    BulletOfLine(line);
    var i, j := TrimOfRest(line);
    assert 1 <= i <= j <= |line| && t == line[i..j] && IsBlank(line[1..i]) && IsBlank(line[j..]);
  }

  /** A bullet comes from a line starting with the mark, and its text is the trimmed rest of the line. */
  lemma BulletOfLine(line: string)
    requires LayLine(line).Some? && LayLine(line).value.Bullet?
    ensures line != [] && StartsWith(line, BulletMark) && LayLine(line).value.text == Trim(line[1..])
  {
  }

  /** The trimmed rest of a non-empty line is the piece `line[i..j]` after its first character, with blank surroundings and no whitespace at either end. */
  lemma TrimOfRest(line: string) returns (i: nat, j: nat)
    requires line != []
    ensures 1 <= i <= j <= |line| && Trim(line[1..]) == line[i..j] && IsBlank(line[1..i]) && IsBlank(line[j..])
    ensures var t := Trim(line[1..]); t == [] || (!IsWhitespace(t[0]) && !IsWhitespace(t[|t| - 1]))
  {
    var i0, j0 := TrimPiece(line[1..]);
    ShiftPiece(line, Trim(line[1..]), i0, j0);
    i, j := i0 + 1, j0 + 1;
  }

  lemma ShiftPiece(line: string, t: string, i: nat, j: nat)
    requires line != [] && i <= j <= |line| - 1
    requires t == line[1..][i..j] && IsBlank(line[1..][..i]) && IsBlank(line[1..][j..])
    ensures 1 <= i + 1 <= j + 1 <= |line| && t == line[i + 1..j + 1]
    ensures IsBlank(line[1..i + 1]) && IsBlank(line[j + 1..])
  {
    assert line[i + 1..j + 1] == line[1..][i..j];
    assert line[1..i + 1] == line[1..][..i];
    assert line[j + 1..] == line[1..][j..];
  }

  /** A plain paragraph is a non-blank line kept verbatim that does not start with the bullet. */
  lemma PlainText(line: string)
    requires LayLine(line).Some? && LayLine(line).value.Plain?
    ensures LayLine(line).value.text == line
    ensures !IsBlank(line) && !StartsWith(line, BulletMark)
  {
    TrimEmptyIffBlank(line);
  }

  /** Laying out a concatenation lays out each part: paragraphs keep the lines' order. */
  lemma {:induction false} LayLinesKeepOrder(a: seq<string>, b: seq<string>)
    ensures LayLines(a + b) == LayLines(a) + LayLines(b)
  {
    if a == [] {
      assert a + b == b;
    } else {
      assert (a + b)[1..] == a[1..] + b;
      LayLinesKeepOrder(a[1..], b);
    }
  }

  /** The non-blank lines, in order. */
  function NonBlank(lines: seq<string>): (r: seq<string>)
    ensures forall k :: 0 <= k < |r| ==> !IsBlank(r[k])
  {
    if lines == [] then []
    else if IsBlank(lines[0]) then NonBlank(lines[1..])
    else [lines[0]] + NonBlank(lines[1..])
  }

  /** There is one paragraph per non-blank line, the `k`-th laid out from the `k`-th such line. */
  lemma {:induction false} OneParagraphPerNonBlankLine(lines: seq<string>)
    ensures |LayLines(lines)| == |NonBlank(lines)|
    ensures forall k :: 0 <= k < |LayLines(lines)| ==> Some(LayLines(lines)[k]) == LayLine(NonBlank(lines)[k])
  {
    if lines != [] {
      OneParagraphPerNonBlankLine(lines[1..]);
      LayLineDropsExactlyBlank(lines[0]);
      var tail := LayLines(lines[1..]);
      var kept := NonBlank(lines[1..]);
      if IsBlank(lines[0]) {
        assert LayLines(lines) == tail;
        assert NonBlank(lines) == kept;
      } else {
        var p := LayLine(lines[0]).value;
        assert LayLines(lines) == [p] + tail;
        assert NonBlank(lines) == [lines[0]] + kept;
        forall k | 0 <= k < |LayLines(lines)|
          ensures Some(LayLines(lines)[k]) == LayLine(NonBlank(lines)[k])
        {
          if k > 0 {
            assert LayLines(lines)[k] == tail[k - 1];
            assert NonBlank(lines)[k] == kept[k - 1];
          }
        }
      }
    }
  }

  /** A description without line breaks that is not blank is one plain paragraph or one bullet. */
  lemma SingleLineDescription(description: string)
    requires '\n' !in description && !IsBlank(description)
    ensures |Paragraphs(description)| == 1
    ensures !StartsWith(description, BulletMark) ==> Paragraphs(description) == [Plain(description)]
  {
    LayLineDropsExactlyBlank(description);
    assert Split(description, '\n') == [description];
    var p := LayLine(description).value;
    assert LayLines([description]) == [p] + LayLines([]);
  }

  /** Edge case: a mark alone is a bullet with empty text. */
  lemma LoneMarkIsEmptyBullet()
    ensures Paragraphs([BulletMark]) == [Bullet("")]
  {
    assert !IsWhitespace(BulletMark);
    assert Split([BulletMark], '\n') == [[BulletMark]];
    assert TrimStart([BulletMark]) == [BulletMark];
    assert TrimEnd([BulletMark]) == [BulletMark];
    assert [BulletMark][1..] == [];
    assert Trim([]) == [];
    assert LayLine([BulletMark]) == Some(Bullet(""));
    assert LayLines([[BulletMark]]) == [Bullet("")] + LayLines([]);
  }

  /** Edge case: a mark after leading space does not make a bullet; the line is kept verbatim. */
  lemma IndentedMarkIsPlain()
    ensures Paragraphs([' ', BulletMark, 'a']) == [Plain([' ', BulletMark, 'a'])]
  {
    var line := [' ', BulletMark, 'a'];
    assert !IsWhitespace(BulletMark);
    assert Split(line, '\n') == [line];
    assert TrimStart(line) == [BulletMark, 'a'];
    assert LayLine(line) == Some(Plain(line));
    assert LayLines([line]) == [Plain(line)] + LayLines([]);
  }

  // ----- the modal -----

  /** The selected client whose modal is open. */
  class ClientModal {
    var selectedClient: Option<Client>

    constructor ()
      ensures selectedClient == None
    {
      selectedClient := None;
    }

    /** A click on a client's card opens its modal. */
    method Select(c: Client)
      modifies this
      ensures selectedClient == Some(c)
    {
      selectedClient := Some(c);
    }

    /** The backdrop, the close button and the call-to-action link all close the modal. */
    method Dismiss()
      modifies this
      ensures selectedClient == None
    {
      selectedClient := None;
    }

    /** A key press: Escape closes the modal, other keys change nothing. */
    method KeyDown(isEscape: bool)
      modifies this
      ensures selectedClient == (if isEscape then None else old(selectedClient))
    {
      if isEscape {
        selectedClient := None;
      }
    }
  }

  /** Opening two clients' modals in turn and closing them in the different ways. */
  method ModalWalkthrough(first: Client, second: Client)
  {
    var m := new ClientModal();
    m.Select(first);
    m.KeyDown(false);
    assert m.selectedClient == Some(first);
    m.KeyDown(true);
    assert m.selectedClient == None;
    m.Select(second);
    m.Dismiss();
    assert m.selectedClient == None;
  }
}
