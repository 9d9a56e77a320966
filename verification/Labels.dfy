/** The 33-letter token alphabet of the privacy model and its textual form. */
module Labels {
  import opened Wrappers

  datatype Category =
    | AccountNumber | PrivateAddress | PrivateDate | PrivateEmail
    | PrivatePerson | PrivatePhone | PrivateUrl | Secret

  datatype Tag = B | I | E | S

  datatype TokenLabel = O | Tagged(tag: Tag, category: Category)

  const LABEL_COUNT := 33

  // The immutable id-to-label order of the pinned model.
  const MODEL_LABELS: seq<Category> :=
    [AccountNumber, PrivateAddress, PrivateDate, PrivateEmail, PrivatePerson, PrivatePhone, PrivateUrl, Secret]

  const TAGS: seq<Tag> := [B, I, E, S]

  function WithTags(categories: seq<Category>): seq<TokenLabel> {
    if categories == [] then []
    else
      [Tagged(B, categories[0]), Tagged(I, categories[0]), Tagged(E, categories[0]), Tagged(S, categories[0])]
      + WithTags(categories[1..])
  }

  const TOKEN_LABELS: seq<TokenLabel> := [O] + WithTags(MODEL_LABELS)

  function CategoryIndex(c: Category): nat {
    match c
    case AccountNumber => 0
    case PrivateAddress => 1
    case PrivateDate => 2
    case PrivateEmail => 3
    case PrivatePerson => 4
    case PrivatePhone => 5
    case PrivateUrl => 6
    case Secret => 7
  }

  function TagIndex(t: Tag): nat {
    match t
    case B => 0
    case I => 1
    case E => 2
    case S => 3
  }

  function IndexOf(l: TokenLabel): (i: nat)
    ensures i < LABEL_COUNT
  {
    match l
    case O => 0
    case Tagged(t, c) => 1 + 4 * CategoryIndex(c) + TagIndex(t)
  }

  function LabelAt(i: nat): TokenLabel
    requires i < LABEL_COUNT
  {
    if i == 0 then O else Tagged(TAGS[(i - 1) % 4], MODEL_LABELS[(i - 1) / 4])
  }

  lemma {:induction false} WithTagsAt(cs: seq<Category>)
    ensures |WithTags(cs)| == 4 * |cs|
    ensures forall k, m | 0 <= k < |cs| && 0 <= m < 4 :: WithTags(cs)[4 * k + m] == Tagged(TAGS[m], cs[k])
  {
    if cs != [] {
      WithTagsAt(cs[1..]);
      forall k, m | 0 <= k < |cs| && 0 <= m < 4
        ensures WithTags(cs)[4 * k + m] == Tagged(TAGS[m], cs[k])
      {
        if k > 0 {
          assert WithTags(cs)[4 * k + m] == WithTags(cs[1..])[4 * (k - 1) + m];
        }
      }
    }
  }

  /** The model's label table lists every label once, at its index. */
  lemma TableOrder()
    ensures |TOKEN_LABELS| == LABEL_COUNT
    ensures forall i: nat | i < LABEL_COUNT :: TOKEN_LABELS[i] == LabelAt(i)
  {
    WithTagsAt(MODEL_LABELS);
    forall i: nat | i < LABEL_COUNT
      ensures TOKEN_LABELS[i] == LabelAt(i)
    {
      if i > 0 {
        var k, m := (i - 1) / 4, (i - 1) % 4;
        assert 4 * k + m == i - 1;
        assert WithTags(MODEL_LABELS)[4 * k + m] == Tagged(TAGS[m], MODEL_LABELS[k]);
      }
    }
  }

  lemma LabelIndexInverse(l: TokenLabel)
    ensures LabelAt(IndexOf(l)) == l
  {
    if l.Tagged? {
      var k, m := CategoryIndex(l.category), TagIndex(l.tag);
      assert (4 * k + m) % 4 == m && (4 * k + m) / 4 == k;
      assert TAGS[m] == l.tag;
      assert MODEL_LABELS[k] == l.category;
    }
  }

  lemma IndexLabelInverse(i: nat)
    requires i < LABEL_COUNT
    ensures IndexOf(LabelAt(i)) == i
  {
    if i > 0 {
      var k, m := (i - 1) / 4, (i - 1) % 4;
      assert CategoryIndex(MODEL_LABELS[k]) == k;
      assert TagIndex(TAGS[m]) == m;
    }
  }

  function TagText(t: Tag): string {
    match t
    case B => "B"
    case I => "I"
    case E => "E"
    case S => "S"
  }

  function CategoryText(c: Category): string {
    match c
    case AccountNumber => "account_number"
    case PrivateAddress => "private_address"
    case PrivateDate => "private_date"
    case PrivateEmail => "private_email"
    case PrivatePerson => "private_person"
    case PrivatePhone => "private_phone"
    case PrivateUrl => "private_url"
    case Secret => "secret"
  }

  function LabelText(l: TokenLabel): string {
    if l.O? then "O" else TagText(l.tag) + "-" + CategoryText(l.category)
  }

  function FirstIndex(s: string, c: char): (i: int)
    ensures -1 <= i < |s|
  {
    if s == "" then -1
    else if s[0] == c then 0
    else
      var rest := FirstIndex(s[1..], c);
      if rest < 0 then -1 else rest + 1
  }

  // A label text without separator yields JavaScript's slice(0, -1) and slice(0).
  function ParseTokenLabel(text: string): Option<(string, string)> {
    if text == "O" then None
    else
      var separator := FirstIndex(text, '-');
      if separator < 0 then Some((text[..if |text| == 0 then 0 else |text| - 1], text))
      else Some((text[..separator], text[separator + 1..]))
  }

  /** Parsing a label's text gives back its tag and category, so labels have distinct texts. */
  lemma ParseLabelText(l: TokenLabel)
    ensures ParseTokenLabel(LabelText(l)) ==
            if l.O? then None else Some((TagText(l.tag), CategoryText(l.category)))
  {
    if l.Tagged? {
      var text := LabelText(l);
      assert |TagText(l.tag)| == 1 && text[1] == '-' && text[0] != '-';
      assert FirstIndex(text, '-') == 1 by {
        assert text[1..][0] == '-';
      }
      assert text[..1] == TagText(l.tag);
      assert text[2..] == CategoryText(l.category);
    }
  }

  function UpperText(c: Category): (text: string)
    ensures forall i | 0 <= i < |text| :: text[i] as int < 0x80
  {
    match c
    case AccountNumber => "ACCOUNT_NUMBER"
    case PrivateAddress => "PRIVATE_ADDRESS"
    case PrivateDate => "PRIVATE_DATE"
    case PrivateEmail => "PRIVATE_EMAIL"
    case PrivatePerson => "PRIVATE_PERSON"
    case PrivatePhone => "PRIVATE_PHONE"
    case PrivateUrl => "PRIVATE_URL"
    case Secret => "SECRET"
  }

  function PlaceholderFor(c: Category): (text: string)
    ensures forall i | 0 <= i < |text| :: text[i] as int < 0x80
  {
    "[" + UpperText(c) + "]"
  }

  // toUpperCase, on the letters of the categories.
  function Upper(text: string): string {
    seq(|text|, i requires 0 <= i < |text| =>
      if 'a' <= text[i] <= 'z' then (text[i] as int - 32) as char else text[i])
  }

  // A placeholder is the category's name in capitals, in brackets.
  lemma PlaceholderText(c: Category)
    ensures PlaceholderFor(c) == "[" + Upper(CategoryText(c)) + "]"
  {
    assert UpperText(c) == Upper(CategoryText(c));
  }
}
