/** The syntax receiver of the DevExpress MVVM source generator (SourceGenerator.cs):
    during the syntax pass it is shown every node and keeps the class declarations,
    in visit order, for the generation stage. */
module SourceGenerator {

  /** A syntax node, reduced to an identity and whether it is a class declaration. */
  datatype SyntaxNode = SyntaxNode(id: int, isClass: bool)

  /** `SyntaxContextReceiver`: its `ClassSyntaxes` are the recorded class nodes. */
  datatype SyntaxContextReceiver = SyntaxContextReceiver(classSyntaxes: seq<SyntaxNode>)

  /** Every entry the receiver records is a class declaration. */
  ghost predicate OnlyClasses(r: SyntaxContextReceiver) {
    forall i :: 0 <= i < |r.classSyntaxes| ==> r.classSyntaxes[i].isClass
  }

  /** A fresh receiver. */
  function NewSyntaxContextReceiver(): (r: SyntaxContextReceiver)
    ensures |r.classSyntaxes| == 0
  {
    SyntaxContextReceiver([])
  }

  /** `OnVisitSyntaxNode`: a class declaration is appended, anything else ignored;
      what was recorded before stays in place. */
  function OnVisitSyntaxNode(r: SyntaxContextReceiver, node: SyntaxNode): (r': SyntaxContextReceiver)
    ensures r.classSyntaxes <= r'.classSyntaxes
    ensures r'.classSyntaxes[|r.classSyntaxes|..] == if node.isClass then [node] else []
    ensures OnlyClasses(r) ==> OnlyClasses(r')
  {
    if node.isClass then SyntaxContextReceiver(r.classSyntaxes + [node]) else r
  }

  /** The receiver after the syntax pass has shown it `nodes`, in order. */
  function VisitAll(nodes: seq<SyntaxNode>): SyntaxContextReceiver {
    if |nodes| == 0 then NewSyntaxContextReceiver()
    else OnVisitSyntaxNode(VisitAll(nodes[..|nodes| - 1]), nodes[|nodes| - 1])
  }

  /** Reference definition: the class declarations among `nodes`, in order. */
  function ClassesOf(nodes: seq<SyntaxNode>): seq<SyntaxNode> {
    if |nodes| == 0 then []
    else (if nodes[0].isClass then [nodes[0]] else []) + ClassesOf(nodes[1..])
  }

  lemma {:induction false} ClassesOfAppend(a: seq<SyntaxNode>, b: seq<SyntaxNode>)
    ensures ClassesOf(a + b) == ClassesOf(a) + ClassesOf(b)
  {
    if |a| == 0 {
      assert a + b == b;
    } else {
      assert (a + b)[1..] == a[1..] + b;
      ClassesOfAppend(a[1..], b);
    }
  }

  /** `ClassSyntaxes` after a pass is exactly the visit-ordered class nodes: it
      starts empty, keeps every class node (duplicates included) and nothing else. */
  lemma {:induction false} ClassSyntaxesAreClassesOf(nodes: seq<SyntaxNode>)
    ensures VisitAll(nodes).classSyntaxes == ClassesOf(nodes)
  {
    if |nodes| > 0 {
      var init := nodes[..|nodes| - 1];
      var last := nodes[|nodes| - 1];
      ClassSyntaxesAreClassesOf(init);
      assert nodes == init + [last];
      ClassesOfAppend(init, [last]);
      assert ClassesOf([last]) == (if last.isClass then [last] else []) + ClassesOf([]);
    }
  }

  /** A node is recorded exactly when it was visited and is a class declaration. */
  lemma {:induction false} ClassesOfMembers(nodes: seq<SyntaxNode>)
    ensures forall n :: n in ClassesOf(nodes) <==> n in nodes && n.isClass
  {
    if |nodes| > 0 {
      ClassesOfMembers(nodes[1..]);
      assert nodes == [nodes[0]] + nodes[1..];
    }
  }

  /** A later pass extends an earlier one: recorded entries are never dropped or
      reordered. */
  lemma {:induction false} VisitAllExtends(nodes: seq<SyntaxNode>, more: seq<SyntaxNode>)
    ensures VisitAll(nodes).classSyntaxes <= VisitAll(nodes + more).classSyntaxes
  {
    ClassSyntaxesAreClassesOf(nodes);
    ClassSyntaxesAreClassesOf(nodes + more);
    ClassesOfAppend(nodes, more);
  }

  /** No deduplication: visiting the same class node twice records it twice. */
  lemma VisitTwiceRecordsTwice(r: SyntaxContextReceiver, node: SyntaxNode)
    requires node.isClass
    ensures OnVisitSyntaxNode(OnVisitSyntaxNode(r, node), node).classSyntaxes == r.classSyntaxes + [node, node]
  {
  }
}
