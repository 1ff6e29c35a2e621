/** How a submission's labels and annotations say what gang it belongs to, and how large that is. */
module GangReading {
  import opened Text
  import opened PodEdits
  import opened Handlers

  /** The size annotation as a number is the gang's size, for the quantum and the gang handler, but kept to its low 32 bits. */
  lemma AnnotatedSizes(ctx: Ctx, p: PodState, n: nat)
    requires 0 < n < 0x8000_0000_0000_0000 && Annotation(p, "fluence.flux-framework.org/group-size") == Dec(n)
    ensures MinCount(ctx, p) == GangSize(ctx, p) && -0x8000_0000 <= GangSize(ctx, p) < 0x8000_0000
    ensures (GangSize(ctx, p) - n) % 0x1_0000_0000 == 0 && (n < 0x8000_0000 ==> GangSize(ctx, p) == n)
  {
    AtoiOfDec(n);
  }

  /** Without a size annotation the size is the owning Job's, then what else is known, for the gang handler the Job's alone, and one at last. */
  lemma UnannotatedSizes(ctx: Ctx, p: PodState)
    requires Annotation(p, "fluence.flux-framework.org/group-size") == ""
    ensures ctx.jobSize > 0 ==> GangSize(ctx, p) == MinCount(ctx, p) == ctx.jobSize
    ensures ctx.jobSize <= 0 ==> MinCount(ctx, p) == 1 && GangSize(ctx, p) == if ctx.otherSize > 0 then ctx.otherSize else 1
  {
  }

  /** A pod is coordinated exactly when it asks to be, has a group by its label or its owner, and is not alone in it. */
  lemma SharedIff(ctx: Ctx, p: PodState)
    ensures SharedGang(ctx, p) <==>
            && Annotation(p, "fluence.flux-framework.org/coordination") == "shared"
            && (Label(p, "fluence.flux-framework.org/group") != "" || ctx.owner != "")
            && GangSize(ctx, p) > 1
    ensures ResolveGroup(ctx, p) == if Label(p, "fluence.flux-framework.org/group") != "" then Label(p, "fluence.flux-framework.org/group") else ctx.owner
  {
    assert |"independent"| != |"shared"|;
  }
}
