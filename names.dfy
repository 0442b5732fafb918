/**
 * The avatar initials the admin console shows for a person:
 * `name.split(' ').map(n => n[0]).join('').toUpperCase().slice(0, 2)`,
 * used by the staff list and by the signed-in user's badge in the sidebar.
 */
module Names {
  import opened Text
  import opened Seqs

  /**
   * `words.map(n => n[0]).join('')`: the first character of every word; an
   * empty word gives `undefined`, which `join` writes as nothing.
   */
  function Heads(words: seq<string>): (r: string)
    ensures |r| <= |words|
    decreases |words|
  {
    if words == [] then []
    else (if words[0] == [] then [] else [words[0][0]]) + Heads(words[1..])
  }

  /** The initials of `name`: at most two characters, none of them a lower-case letter. */
  function Initials(name: string): (r: string)
    ensures |r| <= 2 && NoLower(r)
  {
    var u := Upper(Heads(Split(name, ' ')));
    UpperIsUpper(Heads(Split(name, ' ')));
    if |u| <= 2 then u else u[..2]
  }

  function NonEmpty(): string -> bool {
    (w: string) => w != []
  }

  /** Empty words, from repeated or surrounding spaces, contribute nothing to the heads. */
  lemma {:induction false} HeadsSkipEmpty(words: seq<string>)
    ensures Heads(words) == Heads(Filter(words, NonEmpty()))
    decreases |words|
  {
    if words != [] {
      HeadsSkipEmpty(words[1..]);
      if words[0] != [] {
        var f := Filter(words[1..], NonEmpty());
        assert Filter(words, NonEmpty()) == [words[0]] + f;
        assert ([words[0]] + f)[1..] == f;
      } else {
        assert Filter(words, NonEmpty()) == Filter(words[1..], NonEmpty());
      }
    }
  }

  /** A name that does not start with a space has its own first character, upper-cased, as first initial. */
  lemma InitialsFirst(name: string)
    requires name != [] && name[0] != ' '
    ensures Initials(name) != [] && Initials(name)[0] == UpperChar(name[0])
  {
    var words := Split(name, ' ');
    assert words[0] != [] && words[0][0] == name[0];
    assert Heads(words)[0] == name[0];
  }

  /** Two words separated by one space give the two first letters, upper-cased. */
  lemma InitialsTwoWords(first: string, last: string)
    requires first != [] && last != [] && ' ' !in first && ' ' !in last
    ensures Initials(first + " " + last) == [UpperChar(first[0]), UpperChar(last[0])]
  {
    SplitAround(first, last, ' ');
    SplitNoSep(last, ' ');
    assert first + " " + last == first + [' '] + last;
    var words := Split(first + " " + last, ' ');
    assert words == [first, last];
    assert Heads([last]) == [last[0]] by {
      assert [last][1..] == [];
    }
    assert Heads(words) == [first[0], last[0]] by {
      assert words[1..] == [last];
    }
  }

  /** Doubling the space between two parts of a name leaves its initials alone. */
  lemma InitialsDoubleSpace(first: string, rest: string)
    requires ' ' !in first
    ensures Initials(first + "  " + rest) == Initials(first + " " + rest)
  {
    assert first + "  " + rest == first + [' '] + ([' '] + rest);
    assert first + " " + rest == first + [' '] + rest;
    SplitAround(first, [' '] + rest, ' ');
    SplitAround(first, rest, ' ');
    SplitAround([], rest, ' ');
    assert [] + [' '] + rest == [' '] + rest;
    var tail := Split(rest, ' ');
    assert Split(first + "  " + rest, ' ') == [first] + ([[]] + tail);
    assert Split(first + " " + rest, ' ') == [first] + tail;
    assert Heads([[]] + tail) == Heads(tail) by {
      assert ([[]] + tail)[1..] == tail;
    }
    assert ([first] + ([[]] + tail))[1..] == [[]] + tail;
    assert ([first] + tail)[1..] == tail;
  }
}
