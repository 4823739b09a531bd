/** The two "type" dropdown tables read as codes: every token reads back
    to its label, and the two tables never agree. */
module DropdownTables {
  import opened Wrappers
  import opened SlashBlocks

  lemma AddOptionTokenRoundTrip(l: AddOptionLabel)
    ensures AddOptionLabelOf(AddOptionToken(l)) == Some(l)
  {
    match l
    case Text =>
    case Attachment =>
    case TrueFalse =>
    case Channel =>
    case Integer =>
    case Mentionable =>
    case Number =>
    case Role =>
    case User =>
  }

  lemma GetOptionTokenRoundTrip(l: Label)
    ensures GetOptionLabelOf(GetOptionToken(l)) == Some(l)
  {
    match l
    case Text =>
    case Attachment =>
    case TrueFalse =>
    case Channel =>
    case Integer =>
    case Mentionable =>
    case Number =>
    case Role =>
    case User =>
    case Member =>
    case Subcommand =>
    case SubcommandGroup =>
  }

  /** Each table's tokens are pairwise distinct and read back to their label. */
  lemma TokenTablesInvertible(l: AddOptionLabel, l': AddOptionLabel, m: Label, m': Label)
    ensures AddOptionLabelOf(AddOptionToken(l)) == Some(l)
    ensures AddOptionToken(l) == AddOptionToken(l') ==> l == l'
    ensures GetOptionLabelOf(GetOptionToken(m)) == Some(m)
    ensures GetOptionToken(m) == GetOptionToken(m') ==> m == m'
  {
    AddOptionTokenRoundTrip(l);
    AddOptionTokenRoundTrip(l');
    GetOptionTokenRoundTrip(m);
    GetOptionTokenRoundTrip(m');
  }

  /** The same label gives different tokens in the two tables, and neither
      table emits the label's caption. */
  lemma TokensDivergePerKind(l: AddOptionLabel, m: Label)
    ensures AddOptionToken(l) != GetOptionToken(l)
    ensures AddOptionToken(l) != Caption(l)
    ensures GetOptionToken(m) != Caption(m)
    ensures AddOptionToken(Text) == "3" && GetOptionToken(Text) == "String"
  {
    assert IsDigit(AddOptionToken(l)[0]);
    assert 'A' <= GetOptionToken(l)[0] <= 'Z';
    assert 'a' <= Caption(l)[0] <= 'z';
    assert 'a' <= Caption(m)[0] <= 'z';
  }
}
