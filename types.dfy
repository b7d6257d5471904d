/**
 * The exam data model: the three OBMEP levels with their display labels, a
 * question and an exam ("simulado").
 */
module Types {
  import Strings

  /** The three OBMEP difficulty levels. */
  datatype Level = Nivel1 | Nivel2 | Nivel3

  /** The string value of each level, which is also what the UI displays:
      "Nível 1 (6º e 7º ano)", "Nível 2 (8º e 9º ano)" and
      "Nível 3 (Ensino Médio)". */
  function Label(l: Level): string
  {
    ShortName(l) + " (" + Audience(l) + ")"
  }

  /** The short name of a level: what is left of its label before the '('. */
  function ShortName(l: Level): string
  {
    match l
    case Nivel1 => "Nível 1"
    case Nivel2 => "Nível 2"
    case Nivel3 => "Nível 3"
  }

  /** The school years a level is meant for, written between parentheses in its label. */
  function Audience(l: Level): string
  {
    match l
    case Nivel1 => "6º e 7º ano"
    case Nivel2 => "8º e 9º ano"
    case Nivel3 => "Ensino Médio"
  }

  /** A question. Nothing bounds the number of options or the form of the
      answer: any list of strings and any string are accepted. */
  datatype Question = Question(
    number: int,
    text: string,
    options: seq<string>,
    answer: string,
    explanation: string)

  /** An exam: a level and an ordered list of questions of any length. */
  datatype Simulado = Simulado(level: Level, questions: seq<Question>)

  /** The three short names, and so the three labels, are pairwise distinct. */
  lemma LabelsDistinct(l: Level, m: Level)
    requires l != m
    ensures Label(l) != Label(m)
    ensures ShortName(l) != ShortName(m)
  {
    assert ShortName(l)[6] != ShortName(m)[6];
    assert Label(l)[6] == ShortName(l)[6] && Label(m)[6] == ShortName(m)[6];
  }

  /** Every label is the short name and a space, then '(', then the audience
      and ')'; neither side of the '(' holds another one. */
  lemma LabelShape(l: Level)
    ensures Label(l) == (ShortName(l) + " ") + ['('] + (Audience(l) + ")")
    ensures '(' !in ShortName(l) + " " && '(' !in Audience(l) + ")"
  {
    var s, a := ShortName(l), Audience(l);
    assert s + " (" + a + ")" == (s + " ") + ['('] + (a + ")");
    match l
    case Nivel1 =>
    case Nivel2 =>
    case Nivel3 =>
  }

  /** A short name neither starts nor ends with a space. */
  lemma ShortNameShape(l: Level)
    ensures var n := ShortName(l); n != [] && !Strings.IsSpace(n[0]) && !Strings.IsSpace(n[|n| - 1])
  {
    match l
    case Nivel1 =>
    case Nivel2 =>
    case Nivel3 =>
  }

  /** Every label holds exactly one '(', so splitting it at '(' yields exactly
      two parts: the short name followed by a space, and the audience. */
  lemma LabelSplit(l: Level)
    ensures Strings.Split(Label(l), '(') == [ShortName(l) + " ", Audience(l) + ")"]
    ensures Strings.Count(Label(l), '(') == 1
  {
    LabelShape(l);
    Strings.SplitOnce(ShortName(l) + " ", Audience(l) + ")", '(');
  }

  /** Trimming the part of a label before its '(' gives the short name. */
  lemma LabelPrefix(l: Level)
    ensures Strings.Trim(Strings.Split(Label(l), '(')[0]) == ShortName(l)
  {
    LabelSplit(l);
    ShortNameShape(l);
    Strings.TrimTrailingSpace(ShortName(l), ' ');
  }
}
