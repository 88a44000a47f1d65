/**
 * The landmark catalog: the configured template paths, decoded images and the
 * loading step that keeps only the templates that decoded to a non-empty image.
 */
module Catalog {

  /** A decoded raster, numpy style: its shape is (height, width, channels) for a colour image. */
  datatype Image = Image(shape: seq<nat>) {
    /** numpy's `ndim`. */
    function Ndim(): nat { |shape| }

    /** numpy's `size`: the number of elements. */
    function Size(): nat { Product(shape) }

    /** `shape[0]` and `shape[1]`, the height and width of a 2-D or colour image. */
    function Height(): nat requires |shape| >= 2 { shape[0] }
    function Width(): nat requires |shape| >= 2 { shape[1] }
  }

  /** The product of the extents; it is positive exactly when no extent is zero. */
  function Product(extents: seq<nat>): (n: nat)
    ensures n > 0 <==> forall i :: 0 <= i < |extents| ==> extents[i] > 0
  {
    if extents == [] then 1
    else
      var rest := Product(extents[1..]);
      assert forall i :: 1 <= i < |extents| ==> extents[i] == extents[1..][i - 1];
      PositiveProduct(extents[0], rest);
      extents[0] * rest
  }

  lemma PositiveProduct(a: nat, b: nat)
    ensures a * b > 0 <==> a > 0 && b > 0
  {
    if a > 0 && b > 0 {
      assert a * b >= b;
    }
  }

  /** What one read of an image file gives: an exception, `None`, or a decoded array. */
  datatype ReadResult = Raised | NoImage | Read(image: Image)

  /** A read is kept when it produced an array that is not empty. */
  predicate Usable(r: ReadResult) {
    r.Read? && r.image.Size() > 0
  }

  /** The template paths the fighter is configured with, by landmark name. */
  const TemplatePaths: map<string, string> := map[
    "start_challenge" := "templates/start_challenge.png",
    "cancel" := "templates/cancel.png",
    "confirm" := "templates/confirm.png",
    "li_jue" := "templates/li_jue.png",
    "caocao" := "templates/caocao.png",
    "kill" := "templates/kill.png",
    "wusheng" := "templates/wusheng.png",
    "zhengnan" := "templates/zhengnan.png",
    "small_kill" := "templates/small_kill.png",
    "card_change" := "templates/card_change.png",
    "trustee" := "templates/trustee.png",
    "vectory" := "templates/vectory.png",
    "return" := "templates/return.png",
    "die" := "templates/die.png",
    "choose_wusheng" := "templates/choose_wusheng.png",
    "xiefang" := "templates/xiefang.png",
    "fail" := "templates/fail.png"
  ]

  /**
   * Reads every configured template with `imread` and keeps those that decoded to a
   * non-empty image. A failed read, whether it raised or gave nothing, drops that
   * name and the loading goes on.
   */
  method LoadTemplates(templates: map<string, string>, imread: string -> ReadResult)
    returns (loaded: map<string, Image>)
    ensures loaded.Keys <= templates.Keys
    ensures forall name :: name in loaded <==> name in templates && Usable(imread(templates[name]))
    ensures forall name :: name in loaded ==> imread(templates[name]) == Read(loaded[name])
  {
    loaded := map[];
    var todo := templates.Keys;
    while todo != {}
      invariant todo <= templates.Keys
      invariant forall name :: name in loaded <==>
        name in templates && name !in todo && Usable(imread(templates[name]))
      invariant forall name :: name in loaded ==> imread(templates[name]) == Read(loaded[name])
      decreases |todo|
    {
      var name :| name in todo;
      var template := imread(templates[name]);
      match template {
        case Read(image) =>
          if image.Size() > 0 {
            loaded := loaded[name := image];
          }
        case _ =>
      }
      todo := todo - {name};
    }
  }
}
