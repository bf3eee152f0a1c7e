/** Statement text of the script language. A primitive is one leaf statement,
    `command(key = value, ...);`; a transform or boolean node is a block: its
    header, then its children's text between braces. */
module Scripting {
  import opened Strings

  /** One `key = value` pair of a statement header. */
  datatype Field = Field(key: string, text: string)

  function FieldText(f: Field): string {
    f.key + " = " + f.text
  }

  function FieldTexts(fields: seq<Field>): (texts: seq<string>)
    ensures |texts| == |fields|
    ensures forall k :: 0 <= k < |fields| ==> texts[k] == FieldText(fields[k])
  {
    seq(|fields|, k requires 0 <= k < |fields| => FieldText(fields[k]))
  }

  /** The keys of the fields, in emission order. */
  function Keys(fields: seq<Field>): (keys: seq<string>)
    ensures |keys| == |fields|
    ensures forall k :: 0 <= k < |fields| ==> keys[k] == fields[k].key
  {
    seq(|fields|, k requires 0 <= k < |fields| => fields[k].key)
  }

  /** `command(k1 = v1, k2 = v2, ...)`, the fields in the order given. */
  function Header(command: string, fields: seq<Field>): string {
    command + "(" + Join(FieldTexts(fields), ", ") + ")"
  }

  /** A statement without children ends in a semicolon. */
  function Leaf(header: string): string {
    header + ";"
  }

  /** A statement with children: the header, then the children's text, unchanged,
      between braces on lines of their own. */
  function Block(header: string, body: string): string {
    header + "\n{\n" + body + "\n}"
  }

  /** Every field appears in the header as `key = value`. */
  lemma HeaderShowsField(command: string, fields: seq<Field>, k: nat)
    requires k < |fields|
    ensures Contains(Header(command, fields), FieldText(fields[k]))
  {
    var joined := Join(FieldTexts(fields), ", ");
    JoinContainsEach(FieldTexts(fields), ", ", k);
    ContainsInfix(command + "(", joined, ")");
    ContainsTransitive(Header(command, fields), joined, FieldText(fields[k]));
  }

  /** Every field of a leaf statement appears in its text as `key = value`. */
  lemma LeafShowsField(command: string, fields: seq<Field>, f: Field)
    requires f in fields
    ensures Contains(Leaf(Header(command, fields)), FieldText(f))
  {
    var k :| 0 <= k < |fields| && fields[k] == f;
    HeaderShowsField(command, fields, k);
    ContainsInfix("", Header(command, fields), ";");
    assert "" + Header(command, fields) + ";" == Leaf(Header(command, fields));
    ContainsTransitive(Leaf(Header(command, fields)), Header(command, fields), FieldText(f));
  }

  /** A leaf statement of four fields, cut after each separator. */
  lemma LeafOfFour(command: string, t0: string, t1: string, t2: string, t3: string)
    ensures Leaf(command + "(" + (t0 + ", " + t1 + ", " + t2 + ", " + t3) + ")")
         == (command + "(" + t0 + ", ") + (t1 + ", ") + (t2 + ", ") + (t3 + ");")
  {
    assert ")" + ";" == ");";
  }

  /** A leaf statement opens with its command and a parenthesis and closes with `);`. */
  lemma LeafShape(command: string, fields: seq<Field>)
    ensures StartsWith(Leaf(Header(command, fields)), command + "(")
    ensures EndsWith(Leaf(Header(command, fields)), ");")
  {
    var s := Leaf(Header(command, fields));
    var joined := Join(FieldTexts(fields), ", ");
    assert s == (command + "(") + (joined + ");");
    assert s[|s| - 2..] == ");";
  }

  /** A block opens with its header, holds its body unchanged, and ends in a brace,
      not a semicolon. */
  lemma BlockEmbedsBody(header: string, body: string)
    ensures StartsWith(Block(header, body), header + "\n{\n" + body)
    ensures Contains(Block(header, body), body)
    ensures EndsWith(Block(header, body), "}") && !EndsWith(Block(header, body), ";")
  {
    ContainsInfix(header + "\n{\n", body, "\n}");
  }

  /** A block opens with its header followed by its body, and holds its body. */
  lemma BlockOpensWith(header: string, body: string)
    ensures StartsWith(Block(header, body), header + "\n{\n" + body)
    ensures StartsWith(Block(header, body), header)
    ensures Contains(Block(header, body), body)
  {
    BlockEmbedsBody(header, body);
    StartsWithPrefix(Block(header, body), header + "\n{\n" + body, header);
  }

  /** A block opens with its header and the opening brace. */
  lemma BlockOpens(header: string, body: string)
    ensures StartsWith(Block(header, body), header + "\n{\n")
  {
    assert Block(header, body) == (header + "\n{\n") + (body + "\n}");
    OpensWith(header + "\n{\n", body + "\n}");
  }

  /** A block whose body is scripts joined one per line opens with the first
      script and holds every one of them. */
  lemma BlockOfScripts(header: string, scripts: seq<string>)
    requires |scripts| > 0
    ensures StartsWith(Block(header, Join(scripts, "\n")), header + "\n{\n" + scripts[0])
    ensures forall k :: 0 <= k < |scripts| ==> Contains(Block(header, Join(scripts, "\n")), scripts[k])
  {
    var body := Join(scripts, "\n");
    var prefix := header + "\n{\n";
    BlockEmbedsBody(header, body);
    JoinStartsWithFirst(scripts, "\n");
    StartsWithAfter(prefix, body, scripts[0]);
    StartsWithPrefix(Block(header, body), prefix + body, prefix + scripts[0]);
    forall k | 0 <= k < |scripts|
      ensures Contains(Block(header, body), scripts[k])
    {
      JoinContainsEach(scripts, "\n", k);
      ContainsTransitive(Block(header, body), body, scripts[k]);
    }
  }

  /** A character that no part of a leaf statement uses is absent from it. */
  lemma LeafAvoids(command: string, fields: seq<Field>, c: char)
    requires c !in command && c !in "(); =,"
    requires forall k :: 0 <= k < |fields| ==> c !in fields[k].key && c !in fields[k].text
    ensures c !in Leaf(Header(command, fields))
  {
    JoinAvoids(FieldTexts(fields), ", ", c);
  }
}
