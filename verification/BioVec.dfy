/** struct bio_vec: a piece of memory, by page frame, offset in the page and length. */
module BioVec {
  datatype Vec = Vec(page: nat, offset: nat, len: nat)
}
