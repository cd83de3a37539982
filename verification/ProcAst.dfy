/** The concrete syntax tree the parser hands to the normalizer
    (`rholang/src/proc_ast.rs`), and the weight under which normalization
    terminates. The binary operators share one constructor; `matches` keeps its
    own. A variable is a lexed name or one made by `fresh_identifier`, whose `$`
    no lexed name contains. */
module ProcAst {
  import opened Ast

  datatype Ident = Lexed(name: string) | Fresh(n: nat)

  /** A variable stands for a process or for a name. */
  datatype VarSort = ProcSort | NameSort

  type SourceOp = op: BinaryOp | op != Matches witness Plus

  datatype Ground =
    | GroundBool(b: bool)
    | GroundInt(text: string)
    | GroundBigInt(text: string)
    | GroundString(text: string)
    | GroundUri(text: string)

  datatype ProcVar = ProcVarWildcard | ProcVarVar(x: Ident)

  /** A `ProcRemainder` or `NameRemainder`. */
  datatype Remainder = RemainderVar(v: ProcVar) | RemainderEmpty

  datatype VarRefKind = VarRefKindProc | VarRefKindName

  datatype SimpleType =
    SimpleTypeBool | SimpleTypeInt | SimpleTypeBigInt | SimpleTypeString | SimpleTypeUri | SimpleTypeByteArray

  datatype BundleKind = BundleWrite | BundleRead | BundleEquiv | BundleReadWrite

  datatype Name = NameWildcard | NameVar(x: Ident) | NameQuote(p: Proc)

  datatype KeyValuePair = KeyValuePair(key: Proc, value: Proc)

  datatype Collection =
    | CollectList(ps: seq<Proc>, remainder: Remainder)
    | CollectTuple(first: Proc, rest: seq<Proc>)
    | CollectSet(ps: seq<Proc>, remainder: Remainder)
    | CollectMap(kvs: seq<KeyValuePair>, remainder: Remainder)

  datatype NameSource =
    | SimpleSource(n: Name)
    | ReceiveSendSource(n: Name)
    | SendReceiveSource(n: Name, ps: seq<Proc>)

  datatype LinearBind = LinearBind(names: seq<Name>, remainder: Remainder, source: NameSource)

  /** A repeated or a peek bind. */
  datatype NameBind = NameBind(names: seq<Name>, remainder: Remainder, source: Name)

  datatype Receipt =
    | ReceiptLinear(linear: seq<LinearBind>)
    | ReceiptRepeated(binds: seq<NameBind>)
    | ReceiptPeek(binds: seq<NameBind>)

  datatype Branch = Branch(binds: seq<LinearBind>, body: Proc)

  datatype Case = Case(pattern: Proc, body: Proc)

  datatype NameDecl = NameDeclSimpl(x: Ident) | NameDeclUrn(x: Ident, uri: string)

  datatype Decl = Decl(names: seq<Name>, remainder: Remainder, procs: seq<Proc>)

  datatype Decls = EmptyDecls | LinearDecls(decls: seq<Decl>) | ConcDecls(decls: seq<Decl>)

  datatype SynchSendCont = EmptyCont | NonEmptyCont(p: Proc)

  datatype Proc =
    | PGround(g: Ground)
    | PCollect(c: Collection)
    | PVar(v: ProcVar)
    | PVarRef(kind: VarRefKind, x: Ident)
    | PNil
    | PSimpleType(t: SimpleType)
    | PNegation(p: Proc)
    | PConjunction(l: Proc, r: Proc)
    | PDisjunction(l: Proc, r: Proc)
    | PEval(n: Name)
    | PMethod(target: Proc, name: string, args: seq<Proc>)
    | PExprs(p: Proc)
    | PNot(p: Proc)
    | PNeg(p: Proc)
    | PBinary(op: SourceOp, l: Proc, r: Proc)
    | PMatches(l: Proc, r: Proc)
    | PSend(n: Name, multiple: bool, data: seq<Proc>)
    | PContr(n: Name, formals: seq<Name>, remainder: Remainder, body: Proc)
    | PInput(receipts: seq<Receipt>, body: Proc)
    | PChoice(branches: seq<Branch>)
    | PMatch(target: Proc, cases: seq<Case>)
    | PBundle(bundle: BundleKind, body: Proc)
    | PLet(decl: Decl, decls: Decls, body: Proc)
    | PIf(cond: Proc, body: Proc)
    | PIfElse(cond: Proc, body: Proc, otherwise: Proc)
    | PNew(names: seq<NameDecl>, body: Proc)
    | PSendSynch(n: Name, data: seq<Proc>, cont: SynchSendCont)
    | PPar(l: Proc, r: Proc)

  // ----- groups of forms

  predicate IsOperator(p: Proc) {
    p.PNot? || p.PNeg? || p.PBinary? || p.PMatches? || p.PNegation? || p.PConjunction? || p.PDisjunction? || p.PMethod?
  }

  predicate IsSugar(p: Proc) {
    p.PSendSynch? || p.PInput? || p.PLet? || p.PChoice?
  }

  predicate IsForm(p: Proc) {
    p.PNew? || p.PBundle? || p.PIf? || p.PIfElse? || p.PMatch? || p.PContr?
  }

  /** The last position at which `x` was bound. */
  predicate LastAt(names: seq<Ident>, x: Ident, i: int) {
    0 <= i < |names| && names[i] == x && forall k :: i < k < |names| ==> names[k] != x
  }
}
