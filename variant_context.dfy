/** VariantContext.tsx: the variant selection shared by the pages, 'all'
    until a page sets it. */
module VariantContext {
  datatype Selection = AllVariants | BasicOnly | OptimalOnly

  /** The provider's initial value. */
  const InitialSelection := AllVariants
}
