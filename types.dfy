/** The record shapes of src/types/index.ts that the modelled pages read. Ids and times are integers. */
module Types {

  import opened Common

  datatype ProductStatus = Active | Funding | Completed

  datatype Product = Product(
    id: int,
    title: string,
    titleAm: Option<string>,
    description: string,
    descriptionAm: Option<string>,
    category: string,
    tags: seq<string>,
    votes: int,
    creatorName: string,
    createdAt: int,
    isFeatured: bool,
    fundingGoal: Option<int>,
    currentFunding: Option<int>,
    status: ProductStatus)

  datatype Review = Review(id: int, rating: int, comment: string, productId: int, helpful: int)

  /**
   * A government proposal. The status is kept as the raw string so that the
   * pages' `default:` branches for an unexpected value can be stated.
   */
  datatype Proposal = Proposal(
    id: int,
    title: string,
    titleAm: Option<string>,
    description: string,
    descriptionAm: Option<string>,
    budget: int,
    requirements: seq<string>,
    status: string,
    submittedAt: int,
    reviewNotes: Option<string>)
}
