/** A computation with affine coordinates, written out: (a1 - 1) * G + (b1 + 1) * endo(G) for the generator G. Each doubling
    or addition is given with its slope, its result and the quotients by p, so that checking it takes a few multiplications. */
module LambdaPoints {
  import opened Notions
  import opened Field5x52
  import opened FieldElement
  import opened Jacobian
  import U = UnifiedAddition

  /** The generator (section 2.7.1 of SEC 2). */
  const GX: int := 0x79be667ef9dcbbac55a06295ce870b07029bfcdb2dce28d959f2815b16f81798
  const GY: int := 0x483ada7726a3c4655da4fbfc0e1108a8fd17b448a68554199c47d08ffb10d4b8

  lemma GeneratorOnCurve()
    ensures U.OnCurve(GX, GY)
  {
    CongruentBy(GY * GY, GX * GX * GX + 7,
      0x1b888e01a06e974017a28a5b4da436169761c9730b7aeedf75fc60f6a33cfc7792fe74711f025d590b10e57f1b3a7ce38ffc4c885c515894b45c19c9f413e5e9);
  }

  /** The affine points of -endo(g) and of g - endo(g), for the generator g. */
  const HX: int := 0xbcace2e99da01887ab0102b696902325872844067f15e98da7bba04400b88fcb
  const HY: int := 0xb7c52588d95c3b9aa25b0403f1eef75702e84bb7597aabe663b82f6f04ef2777
  const GHX: int := 0x93c4d65b4cc437be9f2b0aa72325ba6ce5015022596e21f2ea6eadae415a87b0
  const GHY: int := 0xde87653b1778d37f77e9403692bd956f5d419b1b625309ca50730fbc03706352

  // ---------- Computations with coordinates ----------

  /** The tangent at (x, y) has slope l and leads to (x3, y3); a, b and c are the quotients by p. Used like Is. */
  ghost predicate TangentCheck(x: int, y: int, l: int, x3: int, y3: int, a: int, b: int, c: int) {
    forall t: int {:trigger Open(OfCheck, t)} :: Open(OfCheck, t) ==>
      2 * y * l - 3 * x * x == a * P && ThirdX(l, x, x) - x3 == b * P && ThirdY(l, x, y, x3) - y3 == c * P
  }

  /** The chord through (x1, y1) and (x2, y2) does. Used like Is. */
  ghost predicate ChordCheck(x1: int, y1: int, x2: int, y2: int, l: int, x3: int, y3: int, a: int, b: int, c: int) {
    forall t: int {:trigger Open(OfCheck, t)} :: Open(OfCheck, t) ==>
      && 0 <= x1 < P && 0 <= x2 < P && x1 != x2 && l * (x2 - x1) - (y2 - y1) == a * P
      && ThirdX(l, x1, x2) - x3 == b * P && ThirdY(l, x1, y1, x3) - y3 == c * P
  }

  /** The coordinates of u g + v h. */
  datatype Spot = Spot(u: int, v: int, x: int, y: int)

  /** g, h and g + h. */
  datatype Entry = OfG | OfH | OfGH

  function SpotOf(d: Entry): Spot {
    match d
    case OfG => Spot(1, 0, GX, GY)
    case OfH => Spot(0, 1, HX, HY)
    case OfGH => Spot(1, 1, GHX, GHY)
  }

  /** Doublings and additions, each with its slope, the coordinates it leads to and three quotients. */
  datatype Links =
    | End
    | Twice(l: int, x: int, y: int, a: int, b: int, c: int, rest: Links)
    | Plus(d: Entry, l: int, x: int, y: int, a: int, b: int, c: int, rest: Links)

  /** The links lead from s to e. */
  ghost predicate Leads(s: Spot, k: Links, e: Spot)
    decreases k
  {
    match k
    case End => s == e
    case Twice(l, x, y, a, b, c, rest) => Leads(Spot(2 * s.u, 2 * s.v, x, y), rest, e) && TangentCheck(s.x, s.y, l, x, y, a, b, c)
    case Plus(d, l, x, y, a, b, c, rest) =>
      && Leads(Spot(s.u + SpotOf(d).u, s.v + SpotOf(d).v, x, y), rest, e)
      && ChordCheck(s.x, s.y, SpotOf(d).x, SpotOf(d).y, l, x, y, a, b, c)
  }

  /** Some links lead from h to u g + v h, with coordinates x and y. Used like Is. */
  ghost predicate Reached(u: int, v: int, x: int, y: int) {
    forall t: int {:trigger Open(OfReached, t)} :: Open(OfReached, t) ==> exists k :: Leads(SpotOf(OfH), k, Spot(u, v, x, y))
  }

  function Joined(k: Links, more: Links): Links {
    match k
    case End => more
    case Twice(l, x, y, a, b, c, rest) => Twice(l, x, y, a, b, c, Joined(rest, more))
    case Plus(d, l, x, y, a, b, c, rest) => Plus(d, l, x, y, a, b, c, Joined(rest, more))
  }

  lemma {:induction false} LeadsOn(s: Spot, k: Links, m: Spot, more: Links, e: Spot)
    requires Leads(s, k, m) && Leads(m, more, e)
    ensures Leads(s, Joined(k, more), e)
    decreases k
  {
    match k
    case End =>
    case Twice(l, x, y, a, b, c, rest) => LeadsOn(Spot(2 * s.u, 2 * s.v, x, y), rest, m, more, e);
    case Plus(d, l, x, y, a, b, c, rest) => LeadsOn(Spot(s.u + SpotOf(d).u, s.v + SpotOf(d).v, x, y), rest, m, more, e);
  }

  lemma ReachedStart()
    ensures Reached(0, 1, HX, HY)
  {
    assert Leads(SpotOf(OfH), End, Spot(0, 1, HX, HY));
  }

  lemma ThenTwice(u: int, v: int, x: int, y: int, l: int, x3: int, y3: int, a: int, b: int, c: int)
    requires Reached(u, v, x, y) && TangentCheck(x, y, l, x3, y3, a, b, c)
    ensures Reached(2 * u, 2 * v, x3, y3)
  {
    assert Open(OfReached, 0);
    var k :| Leads(SpotOf(OfH), k, Spot(u, v, x, y));
    LeadsOn(SpotOf(OfH), k, Spot(u, v, x, y), Twice(l, x3, y3, a, b, c, End), Spot(2 * u, 2 * v, x3, y3));
  }

  lemma ThenPlus(u: int, v: int, x: int, y: int, d: Entry, l: int, x3: int, y3: int, a: int, b: int, c: int)
    requires Reached(u, v, x, y) && ChordCheck(x, y, SpotOf(d).x, SpotOf(d).y, l, x3, y3, a, b, c)
    ensures Reached(u + SpotOf(d).u, v + SpotOf(d).v, x3, y3)
  {
    assert Open(OfReached, 0);
    var k :| Leads(SpotOf(OfH), k, Spot(u, v, x, y));
    var e := Spot(u + SpotOf(d).u, v + SpotOf(d).v, x3, y3);
    LeadsOn(SpotOf(OfH), k, Spot(u, v, x, y), Plus(d, l, x3, y3, a, b, c, End), e);
  }

  // ---------- The computation ----------

  /** It leads to the opposite of g + h. */
  lemma AllReached()
    ensures Reached(0x3086d221a7d46bcde86c90e49284eb14, 0xe4437ed6010e88286f547fa90abfe4c2, GHX, P - GHY)
  {
    ReachedStart();
    Reach1();
    Reach2();
    Reach3();
    Reach4();
    Reach5();
    Reach6();
    Reach7();
    Reach8();
    Reach9();
    Reach10();
    Reach11();
    Reach12();
    Reach13();
    Reach14();
    Reach15();
    Reach16();
    Reach17();
    Reach18();
    Reach19();
    Reach20();
    Reach21();
    Reach22();
    Reach23();
    Reach24();
    Reach25();
    Reach26();
    Reach27();
    Reach28();
  }

  lemma Reach1()
    requires Reached(0x0, 0x1,
      0xbcace2e99da01887ab0102b696902325872844067f15e98da7bba04400b88fcb, 0xb7c52588d95c3b9aa25b0403f1eef75702e84bb7597aabe663b82f6f04ef2777)
    ensures Reached(0xc, 0x38,
      0x79a7c3a91bb03600869b4491a83a4c30f58ce65b51d3497834379b87b92d72b3, 0xe8234514e23ec86adff2f1635a332183d63c8848eaf73f458a314e99784caa1a)
  {
    var x0, y0 := 0xbcace2e99da01887ab0102b696902325872844067f15e98da7bba04400b88fcb, 0xb7c52588d95c3b9aa25b0403f1eef75702e84bb7597aabe663b82f6f04ef2777;
    var x1, y1 := 0xc360a6d0b34ce6df4135ee7d59f87b33d2fad8cce43837ef3e995b6ed89250e1, 0xe51e970159c23cc65c3a7be6b99315110809cd9acd992f1edc9bce55af301705;
    ThenTwice(0x0, 0x1, x0, y0, 0x7df05feaa87293a98919fb7954ca25dfe4cf7571715512745288cd5285cbcc89, x1, y1,
      -0xec5b84173ab9b8782904f5249d45f553c6881bf9f17e14a25f88900495844903, 0x3df49f5f246bbb25d7a8cb12488c83ae0eca0be9e565c01f109137e0dc3a8446,
      -0x34c11b258a67d81b3ddbae129319646cbd3c25b58921aba8863e082fc851e5e);
    var x2, y2 := 0xdf6edf03731f9b4b8dcd8dcf2a28fa2f8af1e022c6dc8e1cf7f0728c77206b2f, 0xc77084f09cd217ebf01cc819d5c80ca99aff5666cb3ddce4934602897b4715bd;
    ThenPlus(0x0, 0x2, x1, y1, OfH, 0x349de989ca74677d81a4e7af1dc9c8244bb8bc9c349c29eaf4a11fde1aa4ce72, x2, y2,
      -0x160a6274ded7307f04fb88cfb82fa1b366f8b9b964000a5bdaca163c84a5e22, 0xad08848424db98421b124f6454d37624c686b50649606c26321bf5a6c7a9867,
      -0x5c431bad108aebf10112ba28f764410155857ce5bf8fcf4c7917e8ae7ebdae2);
    var x3, y3 := 0xe63bcdd9aa535fc65e3aa731e3e8bed786649d3e56a15a6847aaf28078f38045, 0x51ed8885530449df0c4169fe80ba3a9f217f0f09ae701b5fc378f3c84f8a0998;
    ThenTwice(0x0, 0x3, x2, y2, 0xbbcaa80fed27c5c91ebfffbbef7b21e9569a4d50567e547297c8cd018a4916c0, x3, y3,
      -0x1246ce3ff736aebdb071922464f55806c2f89584aa21c2e8088f7f8a679a88e0d, 0x89c1b1f4ebef45f9ce44d6edfda0798ac727ab67a3ba2c48be1b6f7f3722c433,
      -0x4fd14a1d865b9bbb36215be3067250bb65da7ea16e6087c272b3fddd7dd5b3b);
    var x4, y4 := 0xfde9f0a5fc339c4c9ede87499ce905cf3c83f4855630b904f12e02e421e0a94d, 0x8378eb19537d0da80ec984be76bf2085490d17368ee0ab492fd8f179e46375ca;
    ThenPlus(0x0, 0x6, x3, y3, OfGH, 0x71a9ee69e2764e6a5a9c42079ccbf9307c49f927b4e0f0080e7cb5efe4805e90, x4, y4,
      -0x249d4094df8e1492741449237acd35ef0a6ca107224ca89f7f4cc148cb8ee096, 0x327775461fc27e4cf398c172ef79d11e63f8382ae18724a95d78e165141656a2,
      -0xa83955ed8beede893f2ae0d8ca2fcd759934947fbe8a3bfb0cfb96e2299f7be);
    var x5, y5 := 0x3a1c498ae2af307a8cbb4a5f301e7348b1c0e22d89aa583e376db54a920ad910, 0xf7df167a0d8604c4f13d574b3b5a8265f7e4c3cd2c36dabbd5984c797584fd41;
    ThenTwice(0x1, 0x7, x4, y4, 0x8ff784b17beeca1f136f0311c7e1507792c31d3f7407c394b8735682bb608742, x5, y5,
      -0x25fa960091978ba1aad35547a7ea7ff302171ce0210bd793d14e58dddd241361d, 0x50f6758f9bb96f739c50659f7253df334f96667c4a153999cbb8d23586139bc6,
      0x6e1d3142288b8cf6b70c2fdfa8fe39f7b6b17d0c746d5cdfd5d910800ff2ec81);
    var x6, y6 := 0x8f53bc847db1b710eb32faf14f4399ca7890169c923acebb2594044479d97613, 0x20ed64663e88025e19280ec14a530b40a61626318fab8a53f6ddb2c5342248a5;
    ThenPlus(0x2, 0xe, x5, y5, OfG, 0x571aa6991ef1f6844a368b491139ed9f32024e706f71d4b58bb72cc00b11e40e, x6, y6,
      0x15a6b7b713058e1ff72bcb0614121ce4e909d396224bb2609eac93dfc6580057, 0x1da32002568dae6bc9f9fa987a3d254900cbde4a398277017f03a236f85cb747,
      -0x1cfeb7296e06366bdc14c2642c259fecb8bc3997670413a9cd5ac8b11ffda4f0);
    var x7, y7 := 0xfa4c95718cb89c28c86eabc327788cfb4d351dd711b4930a57325e982b14dcf0, 0x9ab7e78b0293213b20c2fc84ddc3400f395c1752a284af750c196d2a3b7e998c;
    ThenTwice(0x3, 0xe, x6, y6, 0x5ee7ab06eb5f43fe11dfd0bbb39c2e5139049b10f8080b768d47a86dc7a00ebd, x7, y7,
      -0xd85209da353c5b499e09ccad23bcd878c4252db628eb296755b375d0e115f5b7, 0x232ef33f2d98fa7c6f5945465f6e8776755af3010a55dff5163155d0e3ed0cfd,
      -0x27a82da9e682c3d2d8de15849f912ab981d4f26ef26195be0173c3c4f236b3c6);
    var x8, y8 := 0x79a7c3a91bb03600869b4491a83a4c30f58ce65b51d3497834379b87b92d72b3, 0xe8234514e23ec86adff2f1635a332183d63c8848eaf73f458a314e99784caa1a;
    ThenTwice(0x6, 0x1c, x7, y7, 0x71765de1b102793cfdafa72cb7167e92eaafafd69af307714468ebf4d6b20e6e, x8, y8,
      -0x2550792f3f4a2eb8ebdb7d3dde44b86e8bf8b11a6c4f68ab93471f1419a0af050, 0x3249b59becc11ee40902c8b79a40905cf3c3f254546b60a9a2295261fb914f1f,
      0x39043bbf764e34740816d264a643f730cbc46c93f95b6a0b87f85a343089dc70);
  }

  lemma Reach2()
    requires Reached(0xc, 0x38,
      0x79a7c3a91bb03600869b4491a83a4c30f58ce65b51d3497834379b87b92d72b3, 0xe8234514e23ec86adff2f1635a332183d63c8848eaf73f458a314e99784caa1a)
    ensures Reached(0x184, 0x722,
      0xf6c4d080197ef886b4bc291a30c71fc5ef004375b28d4d5aaf8f59a5908cdd70, 0x6d7fd2455216bca9be74aba905dbebb6d922608820f92aa364014e4a8202cd4e)
  {
    var x0, y0 := 0x79a7c3a91bb03600869b4491a83a4c30f58ce65b51d3497834379b87b92d72b3, 0xe8234514e23ec86adff2f1635a332183d63c8848eaf73f458a314e99784caa1a;
    var x1, y1 := 0x926ece93230f997bf01decea7e5d634c76c4d5aa0aea4ec8ea96f4b5efc75c26, 0x6dfb01961731d6ad74113429c099b11dea138fcb123721eece5670ce3aed0ca5;
    ThenPlus(0xc, 0x38, x0, y0, OfH, 0x27cbc938cdbe25571bb5bf5207e88134845885348a0b597c1cb38770b053b188, x1, y1,
      0xa6b21808077f277627b9eee9f31fb6a71ad997b8f27aa41116d89cd15dc0f0d, 0x62fb9880cf07a9f01c48730e59468413a7d8f420d3a1fd326fa91c3f827ed24,
      -0x3da0bf915b94edbe669348c7d9da17749a6acb7a5b2c50bb86cd900745f75d9);
    var x2, y2 := 0xc55ade76f1682598c571bd0699f40d94aa802a49ad8daeae9c8b6b35c1b698f8, 0xac9de2ba9d73507be709380e91681b10b64e4f2cbb20dc609b2037856600ec63;
    ThenTwice(0xc, 0x39, x1, y1, 0x8ebff27598fd2f1750f25937345a0564fffee9d3dcd8529f560e25e7aa0f9f4a, x2, y2,
      -0x80a0581f89ce6e5b35e878445d8edfd52eef302a1c79e5b42ad032d03969f2f8, 0x4f9980e626d5b54e027a67465985428eac5fb6c240313d2fb7eea1af7ab4a9e0,
      -0x1c651f2ac2c3340e7ba4acb93ba183672e642cfd51aaaed8c15a47e6b1ace504);
    var x3, y3 := 0x74f2b748a6f3408728ac2bebee373d4d9d4b14580e1a29277e20ba7271c2c4d2, 0x5c90620e7bec4b0b07fd2c8d3d9019641d3f3b3cb079fd0fcd3ad0905f146998;
    ThenTwice(0x18, 0x72, x2, y2, 0x019f9706d4d7269fa852f4181e02646f1a212c1eaaa4c8d030921751802c0612, x3, y3,
      -0x1c63e7c5c248ab3f86bbfac4a56daee3328f36349528ee201f0534a2cbcfce56c, 0x2a2ab013f20d3b43ef1cb7ad31972f3343611094a6c6508f16835a441bb1e,
      0x8288471871c08ce250d892c5e7025551e55b61b77cf0f97de136a700c7411f);
    var x4, y4 := 0x35825048de788396c8177a5cc68525f2e70154eef4bbc5c5c9798d8b2a858f61, 0x15654d7911e3c658dbe141dabf6e60b657977c22c20bfedea522637d9c86095f;
    ThenTwice(0x30, 0xe4, x3, y3, 0x991b34607c8b73e244fe530a1dc033342f0418bc767cffd009a69a282ffb7615, x4, y4,
      -0x318e5320324462b5f8c92be8a2e3dbdfe73e082b5bfe11031abf82955007d8e4, 0x5b91877f6bf04ce53474c6dceb2ec605ee34b85b0ae48ab4b432bbdce13b958c,
      0x25f0eb6479bb15251610c00cef5f5c7008c8cafd1a29f043c3a58f80d647d612);
    var x5, y5 := 0xc6dde4a050a18be76d9238f3f150e369ac76f06823cc5d69b156cc766047f674, 0x51302418e1aa536697628114fd56937676d572d5a98913c13bfbbaf6ed089b06;
    ThenPlus(0x60, 0x1c8, x4, y4, OfG, 0x68124d5088945d720c1f63d9e72097fa12b46561d92d2ea1a6bc69f57a898c6b, x5, y5,
      0x1bbd49db14cb526c371762fbed83173e22ce5f3587de2943837bb6781d4b659c, 0x2a4ee02065a54c48b3b23162e6f9e74b32c2b3a8afcf1d08d67fc4ae9adf4e74,
      -0x3b17989a3a503fbc9afa18530ab221dfe243ff257cc442dc1311c3157970948a);
    var x6, y6 := 0x1812e06f908fe0ca29d536e5654fa68c8fc258c043e338807a34650f99c6f4b9, 0xe31736cb54668084322a634c094c33858dfe82bd885ab17881c1933ba179c8bf;
    ThenTwice(0x61, 0x1c8, x5, y5, 0x354682e469f123962559679a32fed2359e10a84833aa493a58f2180b630628a6, x6, y6,
      -0x1ada951a9c0713c0abdfadfcf07a632b2eb0784dc5d0ba615c1e22e79b6ec1a98, 0xb16459e6bb490016b17058106329c7296dfd0dd600eadd92527cbbb45b5166d,
      0x24602cc04a5e9459185b7b2266c36a6e5e465bb7edea174ab54e1e88f87c8413);
    var x7, y7 := 0xe0fb339d3af1c9d4117d723b3cbb91097af32f29fa7edd59e579c10fbfb79492, 0xe72b0ed96d30fa3e987df02e76512bc7256ac307f032d35e458cea9069ff677a;
    ThenPlus(0xc2, 0x390, x6, y6, OfH, 0x16d44bbfdb64a9ceaa262294e4eb3ac154e542706d0cfd4987cda839cb0ba4a8, x7, y7,
      0xeadbc7504e44a91df482c9cae9452ed64cf79386f5c55c7732c5d11951fa668, 0x2092d1285e2a63edb42394bcc531c745a572f24155283fe3e74ea7171cfc0f6,
      -0x11ea92fd7057b244c26bab5d431c8ad368625a987481ecf430bd331a84d6922f);
    var x8, y8 := 0xf6c4d080197ef886b4bc291a30c71fc5ef004375b28d4d5aaf8f59a5908cdd70, 0x6d7fd2455216bca9be74aba905dbebb6d922608820f92aa364014e4a8202cd4e;
    ThenTwice(0xc2, 0x391, x7, y7, 0x6d72d1d7f12a83bf88fab1fe8ada3839c0a7213c7af72dddc6538332eea55f11, x8, y8,
      -0x18b7faa7b8ae373e9f6d02ad0ec5a30053b0f2648ee63c43f7721223c3c047be8, 0x2ecafa3173b34bfcd4f49758d338a162b65680bde2dc8161e8d56b619ca19c03,
      -0x9509d706fb79cf6cfd877bf947d635cd2929f17bc22ceecaf8f2d9a03544b5a);
  }

  lemma Reach3()
    requires Reached(0x184, 0x722,
      0xf6c4d080197ef886b4bc291a30c71fc5ef004375b28d4d5aaf8f59a5908cdd70, 0x6d7fd2455216bca9be74aba905dbebb6d922608820f92aa364014e4a8202cd4e)
    ensures Reached(0x3086, 0xe443,
      0x119086919cad02d0766a8f02f4974cf31bfb4731f0cbe5a43f817313d2609c6f, 0x107c8bb1f4971198b5a0887f575fbf7b03a657093e74b4f8a64fe207734c2709)
  {
    var x0, y0 := 0xf6c4d080197ef886b4bc291a30c71fc5ef004375b28d4d5aaf8f59a5908cdd70, 0x6d7fd2455216bca9be74aba905dbebb6d922608820f92aa364014e4a8202cd4e;
    var x1, y1 := 0x19d18ed10b948b302571227570cdf9bd4b4b597e9ddfa8b2214c0854d407c787, 0x5da2b79a2f657bbe33643f4fab01d519ac1b9b212d82e868e2295a2a94796dfb;
    ThenTwice(0x184, 0x722, x0, y0, 0xce1174750bef4e0205d08bce8ac1894592e8425a3c946c99c37d3ecf03099d60, x1, y1,
      -0x21953e310e7fa34e5c28a06467696c3a247c7f76348448c655a2bb92d53af1b80, 0xa5e0189d0bbaffa8659dfa38341ce222652366a8c0852108cd6d8a0cffcea4b7,
      0xb1dacf85790fe61d34b2bd93f6811c677f333d755c7d160fb0c7d986529c2799);
    var x2, y2 := 0xc2c32ec4af8e638142e31ce627ce282382801d6c0a487e07b7129e8498c0c8d0, 0x9e1debba47e2975994dca637b5c6bd833db076eeb802eb4ac03ac0cf4ce6143a;
    ThenTwice(0x308, 0xe44, x1, y1, 0xb889803dd1ebe0f5fc1fd1f3d10453dd13f058791842dd0af4da4993d8be9de4, x2, y2,
      0x7f2eb19818110aa158fdd5f18067c6be61da5762c6e65b277b9dc25f314a648b, 0x8505f233602ba2b1f937c7df9b820b354cc1e45bbdb8f2b4c803650dc3ee716e,
      -0x79c868e7535431138e6064ebc0e9d55322908d35d58a669d20fe904c19ea7c17);
    var x3, y3 := 0x86743f6aba11be3f125f99a505c1012327f224668d39cb7d0751e6bfb57b3225, 0xdedfe1d745b97c0e850fba80ee56a3135f1ef3963fa418ba31024b1bd214ca24;
    ThenTwice(0x610, 0x1c88, x2, y2, 0xd2fdc60b3b1c83013c40d3a5196f679dae9df67a97bafa77695235d4e87b1f2b, x3, y3,
      -0xb7e2a491726a556580c22cf31d307fcb1ee24238e7d41ac193392d77b926dfbc, 0xade5547b7862fd37340ac63c2419f32249231b571f6f3085dc33daeefc11c8cc,
      0x31b4890209b8a1242ac87063e51d8b10954dfc50be99adb44e80e581be890295);
    var x4, y4 := 0xf4dcdf7fb192ddbb725f6c8cf6b6d4c5b5aef5436f6e427544e7e5d4899568bf, 0x035b4d153417fa03771ea67d067b37b1d1b1b8dd7616b256a01e935b63b07eff;
    ThenPlus(0xc20, 0x3910, x3, y3, OfG, 0x2fb0ddf3508e0542c52f8a830ed88c5c3c90999145e5d1e96284f05a783fc6a8, x4, y4,
      -0x25e2add7b3e2d8ac7d0feba87a5da2ac9de9b452d7794ef377c7d17d7dab9a4, 0x8e26bb14690e98cfc42ed84927b4e28a0fca502784eb083041a0dab27af9b7c,
      -0x14917d0b2a1add7312ff8f5eaa0b1971761921a21c3324c56eae4ead908f4d3d);
    var x5, y5 := 0x6b9de86f437132a3d39f02b0fa4c4a84d7713646f6b6e806fb30ae23a7e388e5, 0x5cb09c7656922a618f0b7bf7173e37b613f6a62f7aedbe6cc646065537bf0f5b;
    ThenTwice(0xc21, 0x3910, x4, y4, 0x7d7a43009cb812004255a920971df65f6eec58eeed780dada041fadbed12369c, x5, y5,
      -0x2bb56fbc6f7c0628e271eb3ae4bb48fa4e0ffba7c39eef252ab2621736d5d4535, 0x3d809fd2872a730e2263ddd20fa624d8a83d18a30a7f686c3514d1a929f779e3,
      0x43454a90924946df0967c6694360154d59fbb8e4ab89727b9bce27b6adb8dbe2);
    var x6, y6 := 0x4a740911659f59818ca0695b9e8b62066447ec53e58dd32f93d0387d5f102f5d, 0x75f2a36d53f77829ab262906b4a8b7679bd0f757d316089d98d39a89b470951d;
    ThenPlus(0x1842, 0x7220, x5, y5, OfGH, 0x2a18ca1709aea1caf9800d64f47ff0ef4b4024cdecc388dd13faa602e9e42c3a, x6, y6,
      0x69a46615c68e0628ca20b273f741cba0d5087e095470e7e303a6f72a2b061a9, 0x6ec24b613077b2f44ffef1f2904a6ce994bebae20baf390a0d8de7c39e16f6e,
      0x57414c05d7574083d7bb9e3a1e9ff5d1a86e9576577e6183029f2334a0af328);
    var x7, y7 := 0x306478c7c14b126d30877dfb726b33acfc4e1083585a86460aa5ca9498726ae1, 0x3be7dfdcb09cf0fc529abc776f0ddee440cf6dbf42452dd3e640224427c09858;
    ThenTwice(0x1843, 0x7221, x6, y6, 0xcd02dfa2f39f004e0be281f2dfc91ac32d14fda1e791959929ae709b919a2aa9, x7, y7,
      0x7bf36217b1f8c374e3d2d3fb7ed7c128259f2917c486b0ddab5bed895ca08b41, 0xa42d9a333c15c1213fdc8c7a36c80b2057846e4b9a71160eced978f31dc019ea,
      0x14dec16e3e812ffbb9d524357de89446c6644c732a8265175e5e852a2f03b949);
    var x8, y8 := 0x119086919cad02d0766a8f02f4974cf31bfb4731f0cbe5a43f817313d2609c6f, 0x107c8bb1f4971198b5a0887f575fbf7b03a657093e74b4f8a64fe207734c2709;
    ThenPlus(0x3086, 0xe442, x7, y7, OfH, 0x7b3d33bbf26943f8bd81bf847a765de9058d8afaa8c75ed74879742039d6fdcd, x8, y8,
      0x43885498f9cec318db6c495f8d20b46542c8741143e28b9b6b741d4545b8722d, 0x3b53de584cf71a0d670e96903b0d9663f2da319e9d8e2818b2d1a066eb410852,
      0xed7341b95c26a1735b139948ee5611516c2e45b18e42b01b55c2a0687d84b67);
  }

  lemma Reach4()
    requires Reached(0x3086, 0xe443,
      0x119086919cad02d0766a8f02f4974cf31bfb4731f0cbe5a43f817313d2609c6f, 0x107c8bb1f4971198b5a0887f575fbf7b03a657093e74b4f8a64fe207734c2709)
    ensures Reached(0x3086d, 0xe4437,
      0x46e05a9fbca17c1ae9bb6040697fd6e3403b42182cfe46444623336555267c30, 0xb95767ccb8edbed8bd8028f827cbd69314db1a0553da81c28252222135765a61)
  {
    var x0, y0 := 0x119086919cad02d0766a8f02f4974cf31bfb4731f0cbe5a43f817313d2609c6f, 0x107c8bb1f4971198b5a0887f575fbf7b03a657093e74b4f8a64fe207734c2709;
    var x1, y1 := 0xe4c6c75303026af539286b8b96f139085b2c474ab2349e71cb862be38900a8c2, 0x8eae78d53bb946ba6bc60bf2be5d6f2e30264f864278cb75a5b5b32505ef665c;
    ThenTwice(0x3086, 0xe443, x0, y0, 0x20a2a61e3cb529d0751a58dff1e9f43fcf737c503b0dd1dcacaef96c1888f6f4, x1, y1,
      0x968b8db07891ece433c66fa2bec86893cdce360a520ecd5e5120b654aa854b, 0x42910de393d5a0a44305c17f3d64b8cc7226be5fff1ec102b2ec93ec2fa0c10,
      -0x1aecf97b479c9d1ea8ef800d063c867535ba5aa7375c16139a76beceb350844f);
    var x2, y2 := 0x7d952803d9c477fbcc10e75ad5127b3e44df25bfb19cc870e6348dbe3539abe5, 0xa80f909777fe7b01f561757da8b53f21cc249e382b1aea0ae3b4b00e95a97058;
    ThenPlus(0x610c, 0x1c886, x1, y1, OfG, 0xd4ab442445dca924d73ce923ad03d663e94ee976a7425cd78ab61442e697b7f8, x2, y2,
      -0x58ea8b45a950c59809bec338699f992006ee9b8c8ac5092fe5a486adf43b7cb4, 0xb0ac1b702e4e172feeb04398744e7402315d3cde0f0b50186b2ba866aac0f6cf,
      0x55ba218ac57c9a71f641cbb85c1e04d6bad23736fcd3f8fa1ae9a96d77173edc);
    var x3, y3 := 0x89933cd39600a13314c39ddabe705fab428ab21ae0f7e72bc94a9c2b3fc0ed76, 0x502b2ad2f2fa167200e907709b0179bd6a4330b2a1deebeafefbe951d6a052ec;
    ThenTwice(0x610d, 0x1c886, x2, y2, 0xe49556ca92328ef6f805246bc359a24e8d57f048e4373f80da01dcea943ca812, x3, y3,
      0x734ecdae73855fc27067fec6d1820bccd5e313b6ffd9dc064c55c2a637f8933b, 0xcc1a59b6f9a4f807589b204d113499b7d13425f0cbb09e438b180dd4312a8f3c,
      -0xab5497bf8e19f11027c41b7cd3b6c0ab87a6972c386c1ca67363854c32da46a);
    var x4, y4 := 0x097c80a54ed31e2d9ce547d4fbfd514ad4eba44fae5a254e799d3a373e2c3032, 0xaee2296a1ebb7ceac2cfa8bcee00ce81dd74355567dab4e7a7f0ea0f44910194;
    ThenPlus(0xc21a, 0x3910c, x3, y3, OfGH, 0x465787665c2ba309f62444ea6580efce667a4eae223997e2ab62a16f1c087156, x4, y4,
      0x2cd0c3a847de515d15cc9d4745c3e2f1a75ec1ad8c2c6c0e93d683f2c3264ca, 0x1353fbf94997a0f5dd4af480c282142bc8ab27b78a82db66181f9e9781dff634,
      0x233202edcf9a054a14fd01a8858e81c060702da4d45f9d8c414902b75873b328);
    var x5, y5 := 0xa922fce3df8e80c8bef7ca0daa90155b0497198e5a1774c5889b6ed544377ab1, 0x036220a85bfba3a1e3724e80760d961ce6b8bbebfb0451b57f91cae2044721c5;
    ThenTwice(0xc21b, 0x3910d, x4, y4, 0x2f3195ab7ea275fffa3e6da5378c3e16ce3f00cfa299259713f073fbe439bb41, x5, y5,
      0x3f6cd17ce44744c5deb915c972e30d29177223b3444b1e0b99157d40f84352e4, 0x8b33e8f9ba735d0b2eaa8af275fb5808f1560df49cfc6b5f02fed6ae2245454,
      -0x1d6e7d041e0ac5183d03c384890e1e8c9cadbf36ce68b9f036ac184ffa8f38e8);
    var x6, y6 := 0x9d17799fda34d59b26e04b6ad29b60c88d9c0e2fc30f7d31a5d2c1836ab20bf8, 0x882a1c3eb996159d6c77e0086d4fa9e4a12e08ca4e3188c7caf633ec736fc555;
    ThenPlus(0x18436, 0x7221a, x5, y5, OfH, 0x4d92cbe80574c60742e28325da36a38c7965a9e1edde849e9f6b535b87e7f9d0, x6, y6,
      0x5ebae64f83b4eb0b84057a4a2f0f8a9d8c7316160fa7c1c95413a87d80d0bf2, 0x1781a2d6ca5843435458c37f2b5e3374a93a08dc710ad84b54a8483138ff5734,
      0x3a65ea45e2ea39c58aa178fb68bf975c45f673d9711e00b98f5adabc312c7aa);
    var x7, y7 := 0x4c1c0ed1a0db0b3d05b898c38cf0f56fd10d8677a1444691cefdf93fe3b972b6, 0xd162812cb83d9665d7a5d2a12d3f8a3a0dbbfdb04f6c0a96003b3711278eda05;
    ThenTwice(0x18436, 0x7221b, x6, y6, 0xa88399868486387ac23433b8ec2121a11083b83036bfa7f38c275282b3e1f4a6, x7, y7,
      -0x6dee2482c7d9ddfc8ac27673186a43879d465c9b8015eb993f741672c84e24bc, 0x6eecfd2709addc965d27d2931ee569b3fa343cdeb4a7052b1ef38fd9efeae962,
      0x354e9f4fcd8586831500922e4452a09b84a5a42d62faab9d40ede3ea0b57f72e);
    var x8, y8 := 0x46e05a9fbca17c1ae9bb6040697fd6e3403b42182cfe46444623336555267c30, 0xb95767ccb8edbed8bd8028f827cbd69314db1a0553da81c28252222135765a61;
    ThenPlus(0x3086c, 0xe4436, x7, y7, OfGH, 0x4f2ba144003bd8174a333a3d484be11225873c1756f93e5484a70cc9bee72f3c, x8, y8,
      0x16294c112e902af8b112410f7ac1b4b396a5c9ef4a8fb09c151fec263139d3a5, 0x187bf4f78a939dd45d36b0d88ed0a6d65de75345183730b38b06befae8b737a6,
      0x19e50ee99ff8fccc517811ece021fccb96431d063ff273a721cf3814812f89e);
  }

  lemma Reach5()
    requires Reached(0x3086d, 0xe4437,
      0x46e05a9fbca17c1ae9bb6040697fd6e3403b42182cfe46444623336555267c30, 0xb95767ccb8edbed8bd8028f827cbd69314db1a0553da81c28252222135765a61)
    ensures Reached(0x610da4, 0x1c886fc,
      0xe4ec76326f4205cff6a3029ca9dcb61efc1f488664f3aa424637a873268307ce, 0xd0122ddafafb23faf52deca95ee1eb5f853ba60d87350d6730c8b3b1be18ea48)
  {
    var x0, y0 := 0x46e05a9fbca17c1ae9bb6040697fd6e3403b42182cfe46444623336555267c30, 0xb95767ccb8edbed8bd8028f827cbd69314db1a0553da81c28252222135765a61;
    var x1, y1 := 0x12bf6e36c4e6c66066746e2d731964675778f4b39447ac1da42b593d94ff08b1, 0x4639de17a3416c597bde2c93b5e64803b63b79b27e3c1849a7e5721f25f404d4;
    ThenTwice(0x3086d, 0xe4437, x0, y0, 0x88e62ffabaab40e4a2d1fa36f91fd62bbab11e057df0325f7966b1cad6e5335e, x1, y1,
      0x8b5bca46f5226cfab57ef5c9b18d8a6630a774e0e0036c7058acea5258363e84, 0x493561f4a5db66c7883faa5b1df41d5321e4b140ddc0c6fe96dde82fd98595fd,
      0x1be05cf1437ab14086b1dd30c75aaddc6178d7e6ec169a61fdc98be270cae423);
    var x2, y2 := 0x682e126e701947e780ab770a8c7cea711c3fab9859f169499c1c62d90e7f841d, 0xe251d6e83f2610a450457d14908e88c4cf9b5faed8f0e59f5e72f01dae75470f;
    ThenPlus(0x610da, 0x1c886e, x1, y1, OfH, 0x0ac16e52499f735ddb2b9ac6e92f9a8928225341e8751c2e3689bbb54378e80a, x2, y2,
      0x723abce9e5f68abf7fda02161e0885c9d5264c5e429c73dab9509be920d646f, 0x73aec5f55e49278f1ac36cd4a7fd6ddfb1ac25f522441a1013f9addb543f25,
      -0x396dfa4fb3a52935c360d875d05a43e669762915665fa5eb8d979cc9b15c5d5);
    var x3, y3 := 0x4c4461ffa7a027a92c4b4b06df6f94a1e172c8e88fbae95eed41bf07994b0817, 0x2c50c26140d20797823ff81e0eaaf108a095b4262b77f3125a3df5bdbe11ea25;
    ThenTwice(0x610da, 0x1c886f, x2, y2, 0x573c98a945ced98b070e507dd11a5b4a4bd9fbcd8dc83f2f8e2819ce06dc1464, x3, y3,
      0x1b0e5e8dfe2f3c3da11ae3fc362a40f187c8d234252bf13765c3ee6ea0e94bb3, 0x1dba3e1af7d4c3a5587083c355ffacb8f6fdb37341e4facd4b0baf3368477a71,
      0x983066035bbf0d514c75f5e0fdf310e2dd349b9fbe8a05f7d08281d54531c1c);
    var x4, y4 := 0xa583f785396e31530f2831784e9a4b935123b1521b29ed87e9623e91ac544324, 0x453e9bab382aafa2687ad0862bcd4f434599d488c621bd24a642664d91d0ae07;
    ThenPlus(0xc21b4, 0x3910de, x3, y3, OfH, 0x0ea59a2c587ffe8e72623e3782bf3cbad9be487b073ff12fc50ea6bae3c872ad, x4, y4,
      0x66e6e1a389e934345f32efcaf1551bfe08fe4bf1a4978b3448543b19be6874e, 0xd687fcf3b176fe40fd53084793a409b001330f0dd1a5b02e9d434a0c99b88d,
      -0x51b35e862cac5ae5d03588e93703ac2404a9364a037c2dbc922608b69161f1b);
    var x5, y5 := 0xf4b38ffb48472599a9bbfd51d661e5022a5b4b8e0dfa53193a98df864c3ffa56, 0xd4f78224bec1fb0b701ebe91c09e472919cbdeb4d06b507ef0cf6b522c6d6b00;
    ThenTwice(0xc21b4, 0x3910df, x4, y4, 0xc0ea6e475116e3ae0767ce240fd1bb05e37fe1c0cd8cb5f6e6f55a18d811f9cf, x5, y5,
      -0xd8ad67ad2d77525deaed9b216e890c742e5c9d94b4455d96f32c4086f722a682, 0x91607c18c383f0eb054c96004f79e746282efa06d15cb59b9bc6edd99392e7ad,
      -0x3bac35f669d770651146de68ae78829c2104e91a5e021ba30d0e35c89570949b);
    var x6, y6 := 0xdf99e3bad21fd75b53b02daf1310a0b4cfdb3f8332c434e851b4118e49612306, 0xb9bcb127b05b317b8d29f9013a642650da6884dd3830cbcddc2b5c8cc97f9818;
    ThenPlus(0x184368, 0x7221be, x5, y5, OfGH, 0x48110237ceab344d8c95058b51914b7c2d3b56c3264cd580fd999e0cdb02e067, x6, y6,
      -0x1b4994e6515a94900a7ef2a3db1579c1ed27f8cfa5995542d59979d25d4f25a4, 0x14499260afaeab8db29a29198f0a5b813a09d4184695056ee829c8b7cd847fab,
      0x5f09f555e682e74f4d41c7395a8088a1aef003fc28105071f2f894dafbdc568);
    var x7, y7 := 0xb7bf93a65072078eda8b632e572f328bbe702889f4e8277a40b10d3b3a51872f, 0xc00648dd449393aff2bfa13de1d385571aa3a60126866353b0a2657ca9caa215;
    ThenTwice(0x184369, 0x7221bf, x6, y6, 0xcbc976d1c2f0d7880a02b7b6ddc3701586274e91d64bcf6fe685b71971e87465, x7, y7,
      -0x12232ce16f7999494ae2efd505e48dc57c0859c30f405af6d5b3090c6aa756344, 0xa23920fc77b41f9a1be3463a5e5d6a533bd870a44d1b842ed55b64e86cdce9c2,
      0x1fb97a686b6c68ab6c9431e585fdcaffa1662ba177eba5bf9c64a2de460a653a);
    var x8, y8 := 0xe4ec76326f4205cff6a3029ca9dcb61efc1f488664f3aa424637a873268307ce, 0xd0122ddafafb23faf52deca95ee1eb5f853ba60d87350d6730c8b3b1be18ea48;
    ThenTwice(0x3086d2, 0xe4437e, x7, y7, 0xcb93af4dc7a515042b0e294bc8bdd8ce71fd0bae143e16d22bd988f4771b3c70, x8, y8,
      -0x5a42d79c6b3fe4b3ce0a4a03ae20e4ffffabd1e40e189b962ce106b79059b2ed, 0xa1e38d3825fe858026ce50417469477f76ba4ce9e170d3ba7a1fcc506ad2796c,
      -0x23eca75a9b7d93006f2d75fd259b389ae441e2021de12c1f7a909134e09abca3);
  }

  lemma Reach6()
    requires Reached(0x610da4, 0x1c886fc,
      0xe4ec76326f4205cff6a3029ca9dcb61efc1f488664f3aa424637a873268307ce, 0xd0122ddafafb23faf52deca95ee1eb5f853ba60d87350d6730c8b3b1be18ea48)
    ensures Reached(0x610da44, 0x1c886fda,
      0xec9c1b74e476598ac8b2ffbe1d28ab42d61e908401295dedfff4544973f12deb, 0x6ceef4d5a1957edb9795f27be5df27cc2ab79ef80dd8161a941cacabdf27285a)
  {
    var x0, y0 := 0xe4ec76326f4205cff6a3029ca9dcb61efc1f488664f3aa424637a873268307ce, 0xd0122ddafafb23faf52deca95ee1eb5f853ba60d87350d6730c8b3b1be18ea48;
    var x1, y1 := 0x8ccd0b4e016ca69068222f10f19aa622c518aac24acb96108cd3a62817d2302c, 0xb730efdada5338593748c4932128dfbde39154c159a02bebb27cbbdbfac1a726;
    ThenPlus(0x610da4, 0x1c886fc, x0, y0, OfH, 0xcb140731b77caba12847100416c929340ca9acf08eacdf127fc397ee2ed37e51, x1, y1,
      -0x1fed8fe3cdf7028a9ded6e85cc6ed7c10ae0ef4826d7a96254b97548960d3f7e, 0xa118c4f9f8f8255cf9aefc7d69a04096b121417f8d420a0f4fa9ddae0d46cce4,
      0x45e7ceb17609dba239982a44ff7741ee3ef8357249385ecab6e138591977cf6c);
    var x2, y2 := 0xc684c15408f5ddc2243af0b9470f12b3bf3ff3f707f69f43b5d949f438236922, 0x802c9cb375b3ebaf92d1d26bb0aaf485b3aef4c39fde7470bc2b0bda1380efb4;
    ThenTwice(0x610da4, 0x1c886fd, x1, y1, 0x1bd9c30dddcaebececd78899d862b0a4a1b916e196cac2a4ca49a4d2f603225e, x2, y2,
      -0xc076bf12161661702006a4c1924d22232ef09255f648d67c98525488273413b8, 0x307a8612ee8f06b5bcddf46acb2a3eef4083eae51785f4e020b592c82fe6b16,
      -0x64778e5fde40a77d31e6e7f6c8d2c79628901a759608ef0196170c5eceed432);
    var x3, y3 := 0x4ae0e4ece8f666c2174cb7393e2e0e45cf767d0f6c8d26fad8d3521fb7cb20b1, 0x2027f740a33158447dda5268cedb5f56b049859239afc136ad5d04380eae917c;
    ThenPlus(0xc21b48, 0x3910dfa, x2, y2, OfH, 0xce3aff006392865e0229b6c0e57c2b4ac880d0ff974b5cccfb421ec1be8e70ed, x3, y3,
      -0x7edf9b010db7458c8395f2f886794ec5b81d2e4f777f2b7b3dfab0748cfde12, 0xa622fffd2a6eb5023c7e0d1e9a3d62d43e4dc4d57863ba66deaf6d4f1f9e8125,
      0x639a59a353bead1738b80dae77bd1fa5ae67aa2588d1aded6bf471136c628b23);
    var x4, y4 := 0x02c052df1ba00f8b1aa2123e933ae61edb01a5faeebe8db889cb204b00696c29, 0xe59d7b9939b84738781a92c893f95a2836269583bd71ffb80279843d9b468288;
    ThenTwice(0xc21b48, 0x3910dfb, x3, y3, 0xee27a69ca3307c03cb57d24cfb29591445e43a21f2b834f958566a275c235161, x4, y4,
      -0x5e017fa72793fe00a50efc46bf12b141d1cb237c46b3528d3ceee672bb149c5, 0xdd8dbfef6f9762d70332173a80ab4f8eee0f40afdc789528dca5160258ec3eaa,
      0x431973b05588e6d68a3162336049609951f0d4df2ca82d31e33a63e1e7d127bc);
    var x5, y5 := 0x395e644f0a29f87f0bff6c1eaec0eb610f5784ce8082a866d332fd4a1a27a1c7, 0xd72473e75776bdc8c434d7418b8f50a25b2c01a69f3cd143bb50c2d9322bedec;
    ThenPlus(0x1843690, 0x7221bf6, x4, y4, OfG, 0xbe76c83860632748c85dca393b9af2b57c1040c47edef57aca403641f18c8f1a, x5, y5,
      0x5887c8be66580630189837ab3f56745bed5d9312abbeb4ede882a83a9dc6d5ca, 0x8db48850dfa42cbd7d915b6b94d76b3c8ca66eef9ac305d4b0237a7c10e095a4,
      -0x28a2a884a165ff5aad577f5cde2e0483c17277ac8bfebf74b1ce50c075fb8380);
    var x6, y6 := 0x86a57b6cc4306271bcd82df62e24f6405d7744222656bf6bfb89ccb06bd1561e, 0xe81e63d6044f01b180e8a8cacb7561acc1f249801a4767778a2a6828b53e2cb1;
    ThenTwice(0x1843691, 0x7221bf6, x5, y5, 0x01dc1b0f566c590c0d9773614f34f8d276a963a217fcdbd8e6e193e9ccf94740, x6, y6,
      -0x237145608f57c20b7fe7a91581967f33afc21853d9730827f13e1749efc5f15d, 0x37574a3e5a0113d7a7f2bf63b346d13d274fef3c60e63332eda8003ea75ec,
      -0x8fb85a1bf6f7ecaa4f023446f9cf2d809ab7f44c960af904c8f41f9a4d2c33);
    var x7, y7 := 0x2eedadb4f034d2dffc71faaa2eb95e6a35e2ac0dab962a725e2496a22e3fef82, 0x16e09a4224afedbdf5a8616adf5cc220f233960ec0b49fa9fc93c62af7f4f2ac;
    ThenPlus(0x3086d22, 0xe4437ec, x6, y6, OfH, 0x1f3e81340b2c06da37f1c938bb382224c4ffe10699a0df6441218d5ed843fd07, x7, y7,
      0x6981697e593bb3297ef8139d3c7503f6bf95bf8e509160dec35746924db571b, 0x3d0328d711f90d314872d0ab7d82a3ac7c6a65dbf55c79d219c3fe384f1dc1a,
      0xab4acb28904343f9441a69d78532d7ac5531f59106aa282b94ff2e347bf46c9);
    var x8, y8 := 0xec9c1b74e476598ac8b2ffbe1d28ab42d61e908401295dedfff4544973f12deb, 0x6ceef4d5a1957edb9795f27be5df27cc2ab79ef80dd8161a941cacabdf27285a;
    ThenTwice(0x3086d22, 0xe4437ed, x7, y7, 0x2e3cbd7f649fcf29e55b6d9ce63cb5d5b2e4c76f9d1f81103692969ba1d06232, x8, y8,
      -0x118b42b1dad63225243c9f963a1c4e7d85545b068685986f3e3d14b70bb32be4, 0x859e2832825f355201104160db94869f9feffe9775dba57a81fa4af76c0ba3b,
      -0x2242590261febad108ea539fcf1dcba2dcf55de0e92dcec8e0b5d385a2b4d0f8);
  }

  lemma Reach7()
    requires Reached(0x610da44, 0x1c886fda,
      0xec9c1b74e476598ac8b2ffbe1d28ab42d61e908401295dedfff4544973f12deb, 0x6ceef4d5a1957edb9795f27be5df27cc2ab79ef80dd8161a941cacabdf27285a)
    ensures Reached(0x610da443, 0x1c886fdac,
      0x2a3385d537a36806877730930cad1332282ad2aeee05ce659936073d5d9dfb6b, 0x50cda4e219cf7081a10fef7fd2618fb0b7505212cc043241dd3ab43dc406fce4)
  {
    var x0, y0 := 0xec9c1b74e476598ac8b2ffbe1d28ab42d61e908401295dedfff4544973f12deb, 0x6ceef4d5a1957edb9795f27be5df27cc2ab79ef80dd8161a941cacabdf27285a;
    var x1, y1 := 0x20a9d19f566302c02295671ffb96e23356578b96b128cfdb5aaa1808ac2e7332, 0xf5a8840573ca25d1709644112853221d852fc05bad751b40173b7129ea8c60ac;
    ThenTwice(0x610da44, 0x1c886fda, x0, y0, 0x7a52e93e93158d00ba7facdab9ffdfa2e3585d901d8276ada79bd017f302576c, x1, y1,
      -0x227f644824a714c05221b9e5719c57c110d6bdca236afaab3953d86af012fe4b5, 0x3a732129e4c9bb3bd3d68c2139dbf07f1bd5c914afbe20433e3c7318b1eed7f8,
      0x6173849ccb2b45311918e8b560d12dc032a098f99e8af1547bb6aa43b41564da);
    var x2, y2 := 0x7eb608ea119383d424b7a4fc9ae063b90671e357185b6cd9e081712385f0a70a, 0x3218e5af50e3d72c9fcb5d5c66fbd5755d79932ad1bca3eb2a20d5bebd0f4b05;
    ThenPlus(0xc21b488, 0x3910dfb4, x1, y1, OfH, 0xfc5a189af303c599a43e112228322e3bbfdfa12b6d4dfc879f9448d593b1dbcf, x2, y2,
      0x99c9ed17e9cdc0255af2cbac229889af84cd2c610a7f650e2be2daae7e06abd4, 0xf8c180265dbfb70767a8623470f793e869d8d90b74fe061ec326e495ab4ed5c6,
      -0x5cb51fc31258cdd6a82965a5bf6a618465e02f23761d50999b719c471b0e52f7);
    var x3, y3 := 0xfe7f777cf657aa02c5518b73f777c23560a09ad26720cc8a32537792784df7d9, 0xf8add94aee955d57b2959f24d6e6cf4e08c860cec4af6830cc45c85198477967;
    ThenTwice(0xc21b488, 0x3910dfb5, x2, y2, 0xc7d35f35e1c6fd555b833b541a17be71c7542dcf10b21b2caa462ff808b65a3b, x3, y3,
      -0x6df1a740836291c020f8f60bf662a8a57497b3dd6e0e3312b9e2455bf18b9382, 0x9bfa4c8bdb3e94c9428483d0bd2afa0a25b70b66dd18319ace8ae91428327014,
      -0x63bf1780f856cd172c918a5f9fe97654fe948fa24a6846c27b299205c8ff1aaf);
    var x4, y4 := 0x1d8dfd8885612bd250d8faa64119628f01f3ecf05f7c3cbdb6021d161a35203c, 0x1ef56ccaa0c8305c0aba72beb2159334c9b85eb60a4501e97ef311c86fb30141;
    ThenPlus(0x18436910, 0x7221bf6a, x3, y3, OfH, 0x319957033284757dfc8308d6ae26ddc2b4a11482b0ba63069d0c6f887fe49889, x4, y4,
      -0xcc0bbaa62fe293df5282688c610d4bead9d31fa9b6920c5bbc4fd7e054e61d2, 0x99c0f2858bc43aeec30630650d728256c0cfbbd4e788289e5c19ded0240045f,
      0x2b94f51e8c60bf4b79a72108cf3757403b66d6e20885c453bb2e4b03a9cb8d33);
    var x5, y5 := 0x396012938812db8851bbc837e28c2538c2d2f8a733ea08c0c719fb77dc8dba2f, 0x6c96d4f367c2145d6616f021914dcf1c1622d41e9c62d1bca76f710f6c6a1bd0;
    ThenTwice(0x18436910, 0x7221bf6b, x4, y4, 0x53c203394ec3b898a9b72d36d2e721c59229d942211e611772de49453832b4bf, x5, y5,
      0xa05a2b54f2b6162483ed16dd6c4b64bb5bfc6df909bf7546980777a360fd692, 0x1b6761200bf8af038725a307b794ed2e37025772d5537d04df55fca201f07946,
      -0x91a326034ccbe99d158a765a8e501cd7a020f0cf13f5c343fe5a55746e8b302);
    var x6, y6 := 0x2c3e80940b37ae997a48e9de754ee12eea1b5b13bbcba43353b72b8f8197dfc1, 0x3acdcd5e3bbe7f6e24251c7681bd6e27dd2ab7c0a9688f44b534a404013cfed3;
    ThenPlus(0x3086d220, 0xe4437ed6, x5, y5, OfG, 0xb78f51d0cd8c39aeb2f0069421c78fac0aecfb28b78e7664f8f71999d8b23c4c, x6, y6,
      0x2e27774087bc5895a383633a688247895293c62f08ced274c96cbdc8eee6a0fc, 0x839e37350749e9819a673bdebaa4de68b56f7b4a51c42e326b6176767ee66178,
      0x96a595084faf4de7eee1af4ecbdb3e5ec898f65176c5335e1af4cac58db500b);
    var x7, y7 := 0xe5eeef3c3ade7dc1fb0689bf9f87726f6da5a3bcc044ea59e61f65437944ea66, 0x8769dfc966b4db4c88ac3646cc0f86b29f4ef5d6c0c3b05ff52f6ff17149092f;
    ThenTwice(0x3086d221, 0xe4437ed6, x6, y6, 0xf9de8189f5c988afe863fab0f46b5fdc98821a8f2b3292d7b57f9c3344c733a0, x7, y7,
      0x5bd9ef9405629ef396c61a46ae7a2edb06b93b91fed6a9ef29740e2278f21853, 0xf3e299634cf4a97d5c9a7dd7240f1d0f5885fa4486b1b968aa2df0d25ab5a968,
      -0xb53e009785a892bdc39dd05c92564f3d167429ea9e70880524c5336158dfc17e);
    var x8, y8 := 0x2a3385d537a36806877730930cad1332282ad2aeee05ce659936073d5d9dfb6b, 0x50cda4e219cf7081a10fef7fd2618fb0b7505212cc043241dd3ab43dc406fce4;
    ThenPlus(0x610da442, 0x1c886fdac, x7, y7, OfG, 0xc61f8088c36f174a7ac449dc04bddb22d5d6fe7601b269637e40e5d1ff6b0455, x8, y8,
      -0x53bad9f4fff16b69f14c1b8b5376fd94c4832ea3eed60d3d581eee3aff8f2641, 0x9954beb3eff8396e2c770561a0c549ef8fb947f935f21d5985d15e34cd6be230,
      0x914a0d796f8dcfee7f2185d05e0d809beaf65fd3509ad214bcf1c2d3fae4cffc);
  }

  lemma Reach8()
    requires Reached(0x610da443, 0x1c886fdac,
      0x2a3385d537a36806877730930cad1332282ad2aeee05ce659936073d5d9dfb6b, 0x50cda4e219cf7081a10fef7fd2618fb0b7505212cc043241dd3ab43dc406fce4)
    ensures Reached(0x18436910d2, 0x7221bf6b00,
      0x23589533cb75b842b982dda39f344e5da8e792218f1cbb3edd3733581cfec4b1, 0x3d3bf0a4c664f9e922e993932546f6d5fd561876c3b7f3ead68f7c8e0d52d7b7)
  {
    var x0, y0 := 0x2a3385d537a36806877730930cad1332282ad2aeee05ce659936073d5d9dfb6b, 0x50cda4e219cf7081a10fef7fd2618fb0b7505212cc043241dd3ab43dc406fce4;
    var x1, y1 := 0x1370da03a8fb2882cefbb865df7ea0169186fd90352f76f5e95713dde834143b, 0xa8ea463d6a7019d6a32c82272eb207ded9cedb93e923819131a3470f13c4b3da;
    ThenTwice(0x610da443, 0x1c886fdac, x0, y0, 0xb675df46f5626f5ef732839f01b6f74b8bfae19a82940cf2690c544c770e66a5, x1, y1,
      0x5e4ff88396774da2ec10269f37b7c2904b1bdbc5549e6ca039263d262484d9d3, 0x820bcfbebe80f5816f5bb0f0d10629028df01cebead2c7af729638b377b51f38,
      0x1038e0f964e9657a6b651a15401147c3432beaea5ff58bfd56d30691b37dfb6e);
    var x2, y2 := 0x0b94fc5e463c9ce02dd675556ea6bb01523170a16b4297852ffc6c3044737ba4, 0x383da26bf580cdf3223163db213d1afb4b57284e65a4141fbd0e1f4682fef89c;
    ThenTwice(0xc21b4886, 0x3910dfb58, x1, y1, 0xeb667264018f00549d3d83ae654ad0e4896ead4d232c4d6c1987034acc95376a, x2, y2,
      0x13237784542249f6237150e615391a5f61e5e28b0dfef9e22458b808b1edddfd3, 0xd8753f02f5ab0104302248cec608874fd9801f45376eee5bc8b592de76da6456,
      0x739f9941c2cbc5e6713bc4f7e7d59d1023c88f5e80d7c666b1581a9436929f0);
    var x3, y3 := 0xb0746ea0dd6832330c5661ed8dbbdd9e1b53646754dd806ae17df18bcf632807, 0x58114a7830ff16d378386c42d0bd513a66e6b0a0c709f946ad2c311fb8ce9531;
    ThenPlus(0x18436910c, 0x7221bf6b0, x2, y2, OfG, 0x8277dcacfa51cf6a88c0b2cd67d3322cd5cfd0b22a209bc71c356bc8599b56e7, x3, y3,
      0x38249c1af729dd681fb9af9c5b68ddccb32029c3f9247270937aa550ed94e7f0, 0x427df43e954591d4f7208e32cb3ab06c2f6c13933db09ba8ec7f2ef059aa7832,
      -0x5406aa035b414b9afccc4a5c638f48f998f0bc3289ae36f85781f8212190227e);
    var x4, y4 := 0x4eacc39adf3f3a900ff0a0b8868a096d85702e8cb90065f03a041238f47d204f, 0xd82e1c014db1fcf43bc209ad4b27ebfc8cc6952e6ad918b36eaf8e9b19c863e9;
    ThenTwice(0x18436910d, 0x7221bf6b0, x3, y3, 0xd7ee1b64c873f94cf3bb779539d150578e39b3fbb2fa1c1cc5ec772e05e5b083, x4, y4,
      -0xd850091f8f29c21f2fb1bf86b18d85dc951544609ca41883ca42f1724ee5da23, 0xb621cf7a3b05ee587aa07d092102ab76ae9054fa6ec4797168c675646749f114,
      0x5279a2b9959f6bbcd197f1dfc952ccefa22b892c84dfcb12493b9323c6a8bd52);
    var x5, y5 := 0x751e6f1a27128e503f6a9bd6f2652b106dac895b2aa8b8cb2f68b8f1b05aa28d, 0x83deb7399b50153f54357ed5e38bc73c5eede85280ef29f9e1f58c5c31b656cf;
    ThenTwice(0x3086d221a, 0xe4437ed60, x4, y4, 0x2246149fafa644f173859547ac3171c331d50123f7aaafc5e24e40fe1a9e616a, x5, y5,
      -0xea697e0d92ada86910a6e9d6dbb5e07295d626410e55fe6755c2c3923362201, 0x496b0a9b3a5904b7a8ec4eea3d58ba0f27efcf31541674abdfd913e045eb397,
      -0x5259ef4a8b7d6de3632a17a5ae1b1964307325375a9b3ddfe1157f975fdf2dc);
    var x6, y6 := 0x997b6654b68a96930bdc94074b41ad032dfe8845b46b3ff62da3bfc336b7d56f, 0x989333342d2f68efe87613024fbcb463d9eabcabbb4b7a879930c422cf4916c2;
    ThenTwice(0x610da4434, 0x1c886fdac0, x5, y5, 0x431226ed0a2d79bbf2299db5169ddd3bf25e6e488269bd7b17f63da0b7fbd775, x6, y6,
      -0x5ba5383027890fc7b5bd791d5a819205b5e2fb22a7cec8c59784aa04e4cb284b, 0x119281a99294769ed7ee9de0680f2bddd7a7839b41bd32348bcb75476a698210,
      -0x986e8c52de02a67159cbd2a93e278ba55c81d94c1ddb4c4f65e2635aacec315);
    var x7, y7 := 0x698a2489a14131183346f39cbaaec71b3671b35a7bc55a2a02f60436c073b8d6, 0x0799e28903de9b842411ed82f6c6f55ce62a46c971b9fba96ef5b104aaf9ebed;
    ThenPlus(0xc21b48868, 0x3910dfb580, x6, y6, OfG, 0xa3ab85dd5a5a218e472bb75affdd2d60d019b0a49f4cea6fd0f78119dff17dd2, x7, y7,
      -0x144a9abc9d2e3f986910a3eca6fb8122dfd8974a6a187a517428cab373db88ec, 0x68a3df63fcc53a6ac91404d2c9df5f52b2cf3c280bf659fe0bc0a58dc3399f49,
      0x1ea6bc1d0c94f43fc88e6da3b9a6cb115f5e42cbf44171a97e672c7c185eb19d);
    var x8, y8 := 0x23589533cb75b842b982dda39f344e5da8e792218f1cbb3edd3733581cfec4b1, 0x3d3bf0a4c664f9e922e993932546f6d5fd561876c3b7f3ead68f7c8e0d52d7b7;
    ThenTwice(0xc21b48869, 0x3910dfb580, x7, y7, 0xfcec977021cbbc9539b36021c9c5a16f5afc138cfe4855bfb792c19fe3eef8a0, x8, y8,
      -0x7382d2d7517df6fef7784c1983d40223e446ad1518dc3071418f0b3843e8af54, 0xf9e2a4cc52dce3e56beebd62f45a58cb6a6a7f411ca0f7a815f2eac387e584cd,
      0x4559a84e9c13f9aa1f817f6dc8aaee4cd8a0c5261a0193eeb4781c1a19cd8144);
  }

  lemma Reach9()
    requires Reached(0x18436910d2, 0x7221bf6b00,
      0x23589533cb75b842b982dda39f344e5da8e792218f1cbb3edd3733581cfec4b1, 0x3d3bf0a4c664f9e922e993932546f6d5fd561876c3b7f3ead68f7c8e0d52d7b7)
    ensures Reached(0x18436910d3e, 0x7221bf6b008,
      0x986bbf846c21a6803c071a80478180acd2b1daad7da34b972346181bae29da7d, 0x990d80e6052cb7d0e2f12b9759c096c89e1fbf73597b8a650a832855934f97a2)
  {
    var x0, y0 := 0x23589533cb75b842b982dda39f344e5da8e792218f1cbb3edd3733581cfec4b1, 0x3d3bf0a4c664f9e922e993932546f6d5fd561876c3b7f3ead68f7c8e0d52d7b7;
    var x1, y1 := 0x9098f9f1512cbeb3a9f85dc78a6f8ae9d57be19fc94ba837b2aa11c1e8fa0179, 0x46b6f754ecb931a7098754ed6104f2c9bb264a81fb3ca1891c42db06f1002c94;
    ThenPlus(0x18436910d2, 0x7221bf6b00, x0, y0, OfG, 0xc699a9eda7f5ebae9b273401deebdb633231fc7255f1e50b103cbbf0b99fb731, x1, y1,
      0x43069c13a7ef36f46c65c497c431965e10cf9ca67bbee482f5a35d039ab565aa, 0x9a120f182eaed0e8eb6bc92edbee37e913cf88aa194f38c20f20fc2e46480d91,
      -0x54c161ebb97ccf057d3ca48e41b8261927a3faa4a814d7b0372c9f4a6bfa36dd);
    var x2, y2 := 0x4e695a9da8986a17e977be87dbaae4b7851ebbd4a33d9a22e517ebd8fd6b8223, 0x46fbee2403eb5e2c4a4afbdff028ca96ccc036fc29c9b0ee92d5e60e82318462;
    ThenTwice(0x18436910d3, 0x7221bf6b00, x1, y1, 0x9d65eda11197e9aadb1e26b225d84500cb2c619813b1a6054d15a3f2a15fc3ce, x2, y2,
      -0x9e10a2c6a491ab3d785196ab7442216464389aad1273095080d60d8b865e130d, 0x60c62e0ced3fd6645a83ab0ca8809b0966d6a9749bcab3b98ad34075fc46ef81,
      0x28b18eefe564912c4af2ff8f975a5670683ecb1bbacd75db9dcc931571765622);
    var x3, y3 := 0xd5d44a7771f07dab9f6f9c12ed0c66efca13b1d75e1c985ad68d15e665dfeae2, 0x7fbb310584694cecac5a9827c31c839309c0f2202206d7e46b8b1d8a909c6481;
    ThenPlus(0x3086d221a6, 0xe4437ed600, x2, y2, OfGH, 0xdad7a72c0ecc124aa272613ae9b1ac815ae2c8971304fbcf7ca2ffff6013e215, x3, y3,
      0x3b4a547f0786733a19ad957d06c9019662fc4a82b7d794d23232a9b435e1ad2f, 0xbb13fe61425eecd12ce647fe0b2968ea028a4eb7d20ec424c0015be33e3eda3c,
      -0x73c3237cf609316d542fb41ed6569be18fee02ae7ed8999ad5a573cd7420c0d2);
    var x4, y4 := 0x1b6560908b6e6819e6650837c41461232dd77ced2297c7e26f68e0a24f9bef7d, 0x8f2cb27fd5217091f3efeffdffb37bdf63e17b7d160643842dc090e5b3b269df;
    ThenTwice(0x3086d221a7, 0xe4437ed601, x3, y3, 0xebae179a6e06b6691d70f13820034ede056fb5475de4fd28c591697754f5d620, x4, y4,
      -0x12ca175de0addab62442a89d2f59472c5e9eda66e7f0d60a473680b92090ad374, 0xd8f915b99e1b00f2b7157f160e7ff62f3b1a10bc31f51705ca023c249755f271,
      0xaba2994a5e6715c5e1c7c0caddbbe15ca9d00ac1d4f99207523ecb8ae43467c0);
    var x5, y5 := 0x0dd630e1254167337df69d736fe5d816caa8fdec935d8f2d141edf386db6e71a, 0xa4ef6cec1950c3c91f2114d8bfad671637daa59bc41faa6933322d551a0e7fa1;
    ThenPlus(0x610da4434e, 0x1c886fdac02, x4, y4, OfG, 0x8ab8207e49e53407c23c649089b111889caa774db858b847f6cdacccf4f5dd80, x5, y5,
      0x331fd92876b16d0162f4f03ee023deade0e5468daaa3f0d14a38c700506c2c09, 0x4b2b0776e1552659488600513e0b0eaf609d889b3a9ba1b08559ab837f6011ff,
      0x758f057697f105eef16b275e67bce75a80760c3315dbbbacb6bee507ec17100);
    var x6, y6 := 0xe5a08fa2fa86d43c98aa62225dd95e52b39c4786918ff3c56fc0046f5cfd4a46, 0x0d8711187933ff394f03e69dae782538eb08483c07f4f47943af1e3ef858ea64;
    ThenTwice(0x610da4434f, 0x1c886fdac02, x5, y5, 0x9e81f110d54ca0d10a44334ff93b104a502b870e0f36f4aaa70a69b9596c4559, x6, y6,
      0xca009dd9d2741d74968f59c6c2c2d430ac6f3deff059e14e6310fe7d75efc4da, 0x6224a7859d424071bd6ed213db9aa04b1209e549194006df42974561bd1e4639,
      -0x859c6ea914f3afa55823c543e6613a2e75e030010cbcd50225ff40d4134b6b7f);
    var x7, y7 := 0xac133e83b32e7f1889a08998b0b91cdd029f2f5a3ebc5bd497f223f591e4afd2, 0xf983b4d6fe942e597d785d46a472361d9895c668cd470d9978941cdbc651d267;
    ThenPlus(0xc21b48869e, 0x3910dfb5804, x6, y6, OfG, 0xda3c824ded543deaafadab2e0230ee986e8333f355f2126808e90cff8749d308, x7, y7,
      -0x5bf816f3fcef8956cd86891c745392e9fa834897c195788b9936d30e3c15ad7c, 0xba0b1c3a0f0df5b2e8cad0e9e3e498fc634d66ce5d9597a59b284d9ddfea5670,
      0x310ff17eee23fe3bfc5f44050961b9cfbb46aca4cd6f91c0ffcf8fd92183ac3b);
    var x8, y8 := 0x986bbf846c21a6803c071a80478180acd2b1daad7da34b972346181bae29da7d, 0x990d80e6052cb7d0e2f12b9759c096c89e1fbf73597b8a650a832855934f97a2;
    ThenTwice(0xc21b48869f, 0x3910dfb5804, x7, y7, 0x7115aa5ca57b42c61ab7bef9ba70ccbfc9ba220d6e807419f125eecbb5c2a24b, x8, y8,
      -0x7e8d1700f1553efc4e164fb50538ba30aaf4daae62f8534b12793866c70ddc2e, 0x31f4223b2ea9247ae855d209a37e62323c5be1cd808858a55ecfa197b39707a8,
      0x8ae98e07089140a00fba4b75b83b7c1afa2982bbd63998ec93abbd651223082);
  }

  lemma Reach10()
    requires Reached(0x18436910d3e, 0x7221bf6b008,
      0x986bbf846c21a6803c071a80478180acd2b1daad7da34b972346181bae29da7d, 0x990d80e6052cb7d0e2f12b9759c096c89e1fbf73597b8a650a832855934f97a2)
    ensures Reached(0x18436910d3ea, 0x7221bf6b0087,
      0x4a35b04a6e478aa6de8a8db93cb8ae14ecd58de8e8be74f1a90a444f900ab6e7, 0x643b2190f05445eca4f0eb8814a9696d30f7023f250ed75fc7c12504cb38b802)
  {
    var x0, y0 := 0x986bbf846c21a6803c071a80478180acd2b1daad7da34b972346181bae29da7d, 0x990d80e6052cb7d0e2f12b9759c096c89e1fbf73597b8a650a832855934f97a2;
    var x1, y1 := 0x09a7d7be4e758e47780eb8735ec5bd2f5084f42c9c5fa280a647d8a654953b45, 0x8ccd6743bab86f37f035aced301e49b25cc8a63554ebf928cbe778914e338d7f;
    ThenTwice(0x18436910d3e, 0x7221bf6b008, x0, y0, 0x6cb279085ee9721a3aefeea4c1f842b39e51b00aef97e27cccdd2b97b13f1844, x1, y1,
      -0x8e4796129eb82ce0aedde3f438224ea673459e0cddec52f98ade24dcc1e151e5, 0x2e27128b98f1dee78dd899098940ba5c3b23432519efcf6cd96f245b10f481ff,
      0x3c9e2d7dffdf3d229f28c8d2f6fd01e96f07f98fe421c5dd2dd658bd3c54fb71);
    var x2, y2 := 0x035d0f1163040f67f16c998e93af717d131a644ea16a1f0affeb7426778b6f59, 0xe12c0efaf0ae4094e3fde686d882f4a5889ae9ad5f95168166fd31cf603d8063;
    ThenPlus(0x3086d221a7c, 0xe4437ed6010, x1, y1, OfG, 0x8043dd8f64b5668f5144aaf832736d92147db503363b10c652af192f89f27b2e, x2, y2,
      0x3828fe49f40ec0e90f3e746d24de1f86ed7965500297d56307bb499c4595091f, 0x4043ef8d1d8501b5dda374013182740b5e39e44fa3afa5e8f2b72f0384b9bd52,
      0x3270f5b107769c536b346bb2d9ba5a3de8e9083cbe6fc0cabc0a28179a14e5a);
    var x3, y3 := 0xc56fea83d4f6868f0df607c4154cc9c721380da429048c10cae375636fe02019, 0x0d7383933c68b0236b54b472d1a87ad07f56a15f94c159ad82ef02b12e2164cb;
    ThenTwice(0x3086d221a7d, 0xe4437ed6010, x2, y2, 0xfa5ecf08ed3212a71750d2e876c054aa3c1ebafb559f3ce6b1a048d45f110547, x3, y3,
      0x1b84ee546ff16447c78c4c51ce19af4da06a3a5cc905c13bd3b2d1f2fa62f6a99, 0xf4dd4f7a21436d1ab5501dc3c094a798b94abeee2d25ce2bd3abad1607547bfa,
      -0xbdce4a2e5b2670165f66ee38285ee301d8daf9b9c9efa8901c11a95d6ed19af2);
    var x4, y4 := 0xb75f8e1c55b279e4009ffb6d16e637043fbab1619575f7569e1531974a3e3145, 0xda8f247add9b98f6bb3c383d32446709e3e7007bde9c83e59520918689d8c0f6;
    ThenPlus(0x610da4434fa, 0x1c886fdac020, x3, y3, OfH, 0x627d490be2a34a61619ffca6ff21d947f2dc17d3170cab566ef4b86b2d445109, x4, y4,
      -0x35ef2a3c4ca2c2a450f515d231f967d6491700e0fd5853099aea192ae6de6b6, 0x25e4293d83f8203794f07933f63f4292b6b0ae1a481c8a09f795e70fe4dbaf58,
      0x56925600ec216e4d2afcc764a4d4e710b16e96ecabe88bccb415e12cfa4ebbd);
    var x5, y5 := 0x4525acdae30dfc0d5da99c5b6d5f3f31cc6343ed040df9d9fe9b0dde37d678b1, 0x817766f0a8bd602c5642ae0290a718750357a2d8c447cd6e435e5a288673d366;
    ThenTwice(0x610da4434fa, 0x1c886fdac021, x4, y4, 0xc6d9a7c27b354be2f78dd3902bae0152a49f824a5086127f259ee291ba506d01, x5, y5,
      -0x368430f9234c1d276d400193561c76705479ce3d8a35644b0f7129b86259e351, 0x9a75688eac3aa23c3ecc76b2875186d691a3f4496ea566a56d4e057fa59c3e1a,
      0x58b9e22317ed63372ae6fed348fe9b0d3a50e4f9777cc171c71e7b675e3ab548);
    var x6, y6 := 0xeba8ab16ec9588240137bf34a4a8189ae1b70d70ce041196af9053269cdc976f, 0xcd9790706e464293bff210b0fd37483d22053b6447d1294612572c3376b58c9f;
    ThenPlus(0xc21b48869f4, 0x3910dfb58042, x5, y5, OfGH, 0x98625a246c711a100af38bec79489c8f24351ffaa6a76512847b5f9fb656cc6b, x6, y6,
      0x2eccb541463388319d2ad40c96bfc9a5c57d6de01943bd85bd30dd0d9f097aa7, 0x5ab4f0d46466f6f9355bd4cbd2032196e7854763f9e99d3612995dcb69103a67,
      -0x631dbfbab6f9d0e359bd91b8a2f559ebbc215d5f82f024d44805aa01e34f1ec1);
    var x7, y7 := 0x4157b629b7b3bfb30b72e7bb0e0b743e694e9caa9de299191b701d17a0e06dc1, 0xd758f65516635d4829cb8d281c88048bc4c7ea5679bff916f4bca5d3d84c2ff7;
    ThenTwice(0xc21b48869f5, 0x3910dfb58043, x6, y6, 0xeb67cc2c15d84b6a82cdeb80b0ac7e802a8bb5d4d7ad51cfc4777ef5cc6e5074, x7, y7,
      -0x110b250a2420933336b83701799327fc4f85a7e3d3378c54d855f959cebf9b4a5, 0xd877baeede6af8ea78443045bf7301f281a722ddf779b7051bcbe331740285df,
      0x9c9d5f3e229b33530b5f33cd5d0e8d08446ce7e3434d165bbd8e95f26275a35e);
    var x8, y8 := 0x4a35b04a6e478aa6de8a8db93cb8ae14ecd58de8e8be74f1a90a444f900ab6e7, 0x643b2190f05445eca4f0eb8814a9696d30f7023f250ed75fc7c12504cb38b802;
    ThenPlus(0x18436910d3ea, 0x7221bf6b0086, x7, y7, OfH, 0x57fe22fbc1ac24e0b52d97b58cf89b2aed226f8183f66e0b7bc11ca7118ad091, x8, y8,
      0x2a646192374bf51b3117ed89372511875f7934e39cf81c20a6a1289f670bd5f6, 0x1e3eb8108dff29b0fced87b63a3a9a758c45fb52b6db62eb5ea31a462d2d2bb2,
      -0x30c3d757e1346ec95d2edb33950f481a9fde008e9ec6bf9d8ec444d0a5f46b1);
  }

  lemma Reach11()
    requires Reached(0x18436910d3ea, 0x7221bf6b0087,
      0x4a35b04a6e478aa6de8a8db93cb8ae14ecd58de8e8be74f1a90a444f900ab6e7, 0x643b2190f05445eca4f0eb8814a9696d30f7023f250ed75fc7c12504cb38b802)
    ensures Reached(0x3086d221a7d46, 0xe4437ed6010e8,
      0x4e514e635b081c74fe07e706136585d8b675a4220daaa49e67d72e096af300f3, 0x79c684b4e76148ac28f55d93c9bd5be8d13dff6fd78aa3ce5157b10af55ef61c)
  {
    var x0, y0 := 0x4a35b04a6e478aa6de8a8db93cb8ae14ecd58de8e8be74f1a90a444f900ab6e7, 0x643b2190f05445eca4f0eb8814a9696d30f7023f250ed75fc7c12504cb38b802;
    var x1, y1 := 0xba0c0a0dae53aa649e3b9f255a62bef7b7a17a628819cf12b94494c7d1b58440, 0xeaf88fd2d0fad191d84290aec1132a4a2ab471b26594c79c188f009cf07c2f87;
    ThenTwice(0x18436910d3ea, 0x7221bf6b0087, x0, y0, 0x6e06da1637f92a748f9e806173aec6a9f84c719d6ae87f7ef41af1efaa97a6dc, x1, y1,
      0x159eeedbbc9079cb26e779c0f88d34de42df30d3cc89b5f40cedce96f2c14b73, 0x2f49e39a0aee996c3041c526195f9a63055be082c0b7c518f2241fbf29ca6a9e,
      -0x301118de3d6898907327794afcb2ec36f99c656457bea1977203774e22cfc00b);
    var x2, y2 := 0xf437079be6e69df1a7fff6ef08c3c6db7a7ec32c1469ca4a5b530e652d002277, 0xf6d3b1ad103b3b843221f55a8f0b83f6e9d5675a528e28aa8813f39f71b99888;
    ThenTwice(0x3086d221a7d4, 0xe4437ed6010e, x1, y1, 0x804a20671ae145408095d09ba5141b81e5af3f47ccfbf1db282a776d0a61a867, x2, y2,
      -0xaa1fda8518d0e1a9c3f950fb469f57a19b2cbd81ff92af93b3f0564f76e48702, 0x404a35ddda96bfbb7f48899114009cef46e944914773fffff40adf9f5c6bd8a6,
      -0x1d265691347f2cd197458582ce68a2b9e7032107737606c7c47ef0e96dbdfed0);
    var x3, y3 := 0xc260dc6472911495073d155227fb0bb3f002ba7c730ad63216fc6a91016725b2, 0x473d9a6874f3854cb14b6aa01acd48580acb005178f5882163f92d43891e6093;
    ThenPlus(0x610da4434fa8, 0x1c886fdac021c, x2, y2, OfH, 0x931909d0f9cbb50573e451db62434591dac88425ac6fd2644098eb47a42b3ce3, x3, y3,
      -0x1fe9c1b127364b70450c4a6609769552ff99fb7a25508dbc312451f20a1abdfd, 0x5485c3b8ea1117d4cfa74bd982918dc6ae2b5e0abdad87780d5d5e49701a4dbb,
      0x1ca2daa44660827ad31c9f5b39f0e129495b94e77671454b9724716ce5befaac);
    var x4, y4 := 0xa21c0cfe5d4b82c3b10a3a365425c3cf49056b7d18014288fe1e86f45e3dcc70, 0x2a479bffddf04326c05098c0070403c84150689c634b01e6e408c26d57f914f4;
    ThenTwice(0x610da4434fa8, 0x1c886fdac021d, x3, y3, 0xac70618bf7b220f8e44909f7c8d24081b60b0256b5203a153aff8f8ca1117c42, x4, y4,
      -0x15acb845cc5d16abfa76fba854862b614b0daedbd36e6498445295e9c6b54bc80, 0x74273469947b7667349f8827166a69c584fedb544d8e3f1440e8b177e7456dd0,
      0x15bc65bf0a1f2f01076374ff0287e6e16635cc85b3153506d11cdade85339213);
    var x5, y5 := 0xb72312cddac7bc6847c4d978d9863f1fc7a740f7f6889060ff777a7d7256555e, 0xd8e4dddf141e787507f590c0abf8a9f2afa474e575cdb4fa2d59910d7d535568;
    ThenPlus(0xc21b48869f50, 0x3910dfb58043a, x4, y4, OfG, 0x3663923afb977165f0d674fac65e062f55f24a81e142fb5a969224c7153bd75a, x5, y5,
      -0x8937464f814e4c52500e65b5e17a830cd399c8b626eac58d1392fc75759ce8c, 0xb8e286b4f49cf886bacba12e301f0d0e26a5f595cf1bb03bbc869d1bba7ac22,
      -0x477a8f3dd47b4eda00079fc142a6f1be704914414c4c6fcfe7f90c37eaae678);
    var x6, y6 := 0x0a008be22ad5b409a1243b00abcbff435573439418b46053cc129d953f5a5335, 0x7094bf60201672c5726184a5956489b079ad81c88f41a393019c26146d723ccd;
    ThenTwice(0xc21b48869f51, 0x3910dfb58043a, x5, y5, 0xd3f6fca7f116566dcaf47dc52cfaa6c1255d07330c4a4502e5b982ae0926da22, x6, y6,
      -0x21ddb35a118c9d83d265fbb9df75e9770258cc81db22173c4870200f53ac0bd4, 0xaf8112c763893a377fe910b291dd12ae9c4af75e1194bd2d0ca7d79c7ea0e6dd,
      0x8f5a7f4179e230db6898534af7260d8a698c7381a2dceb585987f908f63f8253);
    var x7, y7 := 0xf61d45a64a40ba06ad1e6184305c8900016d54f76429615dcc3e160d26a50932, 0xe35e56c98b232c622f346b75a597f6ade7ea0253e8a487dd3b6751e228f15399;
    ThenPlus(0x18436910d3ea2, 0x7221bf6b00874, x6, y6, OfG, 0xb56a989791deba7bc42aaab3b37f430a341eb623425b5a4a66a99430675734b0, x7, y7,
      0x4f2fc2c845c27f95d89515bdcccae12cf8f8456e8cad3c253b30024df7cc47eb, 0x808fe8290cbe171b5733d0b3b86603988a43cb9783a439ce704b282cd3b855cf,
      -0xa7529ff96f336502ab7f8fd159d360a7d0a10bc4889c1e5aa58dc74d4e7faf8a);
    var x8, y8 := 0x4e514e635b081c74fe07e706136585d8b675a4220daaa49e67d72e096af300f3, 0x79c684b4e76148ac28f55d93c9bd5be8d13dff6fd78aa3ce5157b10af55ef61c;
    ThenTwice(0x18436910d3ea3, 0x7221bf6b00874, x7, y7, 0xc11907a935b9667ad5410a4b1540de587c4d64b4d88ea37acef4ef5693d5031d, x8, y8,
      -0x16ed41ab8c218a2dc27f21b4a189a4ab11051861448fef615e70ed1f865d6d4fe, 0x91a6bfffa248bb83573408c47a00eb5c33abe48fd1d10c8a174b42531a86aaae,
      0x7e912d5a1882dacf034e7c847c02d5c887efef19e29bf3db35baa289e9a862f2);
  }

  lemma Reach12()
    requires Reached(0x3086d221a7d46, 0xe4437ed6010e8,
      0x4e514e635b081c74fe07e706136585d8b675a4220daaa49e67d72e096af300f3, 0x79c684b4e76148ac28f55d93c9bd5be8d13dff6fd78aa3ce5157b10af55ef61c)
    ensures Reached(0x610da4434fa8d6, 0x1c886fdac021d10,
      0x18d8152c821e88246f46e0fcb1df9c1ac19f4d2eb4e5783d991c5460151ce52f, 0xb9363d64dd2957d9dbc2b4c309be36e5b66be02f46ec41a715c7a14de4fd91d7)
  {
    var x0, y0 := 0x4e514e635b081c74fe07e706136585d8b675a4220daaa49e67d72e096af300f3, 0x79c684b4e76148ac28f55d93c9bd5be8d13dff6fd78aa3ce5157b10af55ef61c;
    var x1, y1 := 0xecf9c7118d6b13707b5962879483c066c56873afda3e805d4839ce977ae863e5, 0x6b5d74a4d707c7c8e1cb528993efb7d5e991eb525ab2c3b7a33840f477b517c8;
    ThenTwice(0x3086d221a7d46, 0xe4437ed6010e8, x0, y0, 0xc5699d54f3c395d3275177dd2955c7e281fa4be8c31183a7c66a0c93df3bb735, x1, y1,
      0x73ef11ffde6bb98dfec5afa9dc0d1f81442d571117cdf7199b4ff63c2b5f15f3, 0x983bb7b72f8c4a36a7f5d7f6e387e5700e939f81c71a49ca8169776ac618f632,
      -0x7a591979849662724082b58a7cbe3b8c3ac2434a55b4b28009e529ffc3466262);
    var x2, y2 := 0xf58755aff4a9ffd82b88770fe08cc881b9cb9aa7359cf0c83788163d41ba14a9, 0xd5770619ad7e97f16a4658b70e97cc6cf8766f844efe7b58e6cb4d5a8c234bc1;
    ThenPlus(0x610da4434fa8c, 0x1c886fdac021d0, x1, y1, OfGH, 0x55d1166c962c709404c34f61f35f7d5c79db757375ad982a0c87e865c56d2f60, x2, y2,
      -0x1de76ff56b9be6fbee5ec6c62920c92471e4f54063307404ba06d3f78a6c7fb6, 0x1cc483a9bafd8f30cdca02f899f4f98e56481cba7e28a5d73f82093acd64bdde,
      -0x2ddfcabd2986438992037ed100e75d8fdbb6dfc2002ce36597f4a68d6d1c847);
    var x3, y3 := 0xef28eebb813712d1295a7562c7961d8571786cf87eec1f44262cedfa3aad64fb, 0xcf5d89a791b64b613492f9fe857617b387f30002f02712d6fe940abb09ddf064;
    ThenTwice(0x610da4434fa8d, 0x1c886fdac021d1, x2, y2, 0xd513c8366364008762295dd307f50aaa9f7ed5afa189ff91df5c6d1e355bf1e8, x3, y3,
      -0x15f1be6f483ab51170768b7dcefc88454db5a494780a8878c23251124398fdf8d, 0xb159ecb1d60c3093b30baa3c444f3a10f1123a62e5734efba78213116666df7d,
      0x54d09a62304e134ae1cea52579222e5039df846292fe14f710bc43cccd90765);
    var x4, y4 := 0xa23f206aa241352cde2bcf2db06ddee6371bda3856245439f9a3af0a272f6257, 0x80a48cc6200b0c95f858c1b1b8bfe57689ef33ef484e9c4a0645bd5224fb6fbd;
    ThenTwice(0xc21b48869f51a, 0x3910dfb58043a2, x3, y3, 0xaecc81515374e3b3ccfcf5a3406c05a0088e3d58ca35ae53440481acb27a65ed, x4, y4,
      -0x18319e7358b372103caa8434910c09f5557209b18cc0c9ff7f8dd6de68109e14d, 0x775aa328e862f7c509dede75cbc9a46185f16b82779c1534755b4787a1994da4,
      0x34845b65a000bcc1c6728fe3c7c81117764af2070f84c5d9d3669ab1badc19bd);
    var x5, y5 := 0xc8e199b65f2d8aaebb4d4e7c37c36912b3ff6556f29ea7ef7bda5133a704ee7c, 0x151e56b747220617406e6131601df83a613a1b03c965caed9877bd8763588fe1;
    ThenPlus(0x18436910d3ea34, 0x7221bf6b008744, x4, y4, OfG, 0x04bbcfdbd2c4dd83182f31cbdde180a44f5258a7088abb1eab3317b1affcfbb8, x5, y5,
      -0xbfb9d25b92eb2a95fb4067bc190dec7121965a9717addfda51b8646d91212d, 0x16684832814e245edb60b7d62227f15723d49a2553f4fc73a3de6515b1c33b,
      -0xb6e1f25627b0d93f19870267ce0f3b793e4a098c46d0470e04a92d855c96aa);
    var x6, y6 := 0x6095ffed613b6f512a43e6a8f18aa85eaedb3499072f726fb8462fca27115fea, 0x024f91857abe41a3e039a01f516e7463f1ea8f62e802382facdfad6bb2c9cfeb;
    ThenTwice(0x18436910d3ea35, 0x7221bf6b008744, x5, y5, 0x9ff78b3701b2346d570cbc1fcdb11801d89dadae7a13289af6b3417695a65584, x6, y6,
      -0x1be7f4dba853e6e8f922738cf8a3f85bb92971c950cebf4baebb9358174fc3658, 0x63f56e4c43f56aaa3ca3f03b901c07d5978263a47c898020970c413c2f5ef232,
      0x412bce2cac15752f25de2a7859bca8e3115ab3709b485a5b0261dc3946f62f44);
    var x7, y7 := 0xd8e67414d164e968ded5940ec223d80377d7c7a92d42fa5ce1a11cde002f8423, 0x3965a1b679f6b3f0aa80a6fa0435a847a16b627bc4888d6948e1944320d868a4;
    ThenPlus(0x3086d221a7d46a, 0xe4437ed6010e88, x6, y6, OfG, 0x11077b5d343a9ab1ca4d7d1d9bed1a2c658a80d1df0a4d682421263bf065fc85, x7, y7,
      0x1ac6b0a0b3510e5ad2935a10e6b87c8c1086cfa6340392b552234c9ab1685b7, 0x121fe9a5b7b55df607a74b0e914e899c7a59e07cb469ff0bfc87f128da994cc,
      -0x800dbe4411bd9fbdeaa20755384fcf6e88eaf171868777d7be0e682f0459594);
    var x8, y8 := 0x18d8152c821e88246f46e0fcb1df9c1ac19f4d2eb4e5783d991c5460151ce52f, 0xb9363d64dd2957d9dbc2b4c309be36e5b66be02f46ec41a715c7a14de4fd91d7;
    ThenTwice(0x3086d221a7d46b, 0xe4437ed6010e88, x7, y7, 0x8ff4b5fa91d641bf3605b5be2924f023967d25bab4c9c6ded5c11974e38a2298, x8, y8,
      -0x1e6c3d4078f850f3a46577761a28affad9611b51f1aee1cce4873a8203e4eb855, 0x50f34d3955efa55b155e9193125f01f5f06cd4422c832acce3a2f7bd880bc625,
      0x6bff9d3c5e3faf6c217da7c55ec3637a43e90da271da995e654ad2592f6895ab);
  }

  lemma Reach13()
    requires Reached(0x610da4434fa8d6, 0x1c886fdac021d10,
      0x18d8152c821e88246f46e0fcb1df9c1ac19f4d2eb4e5783d991c5460151ce52f, 0xb9363d64dd2957d9dbc2b4c309be36e5b66be02f46ec41a715c7a14de4fd91d7)
    ensures Reached(0x610da4434fa8d79, 0x1c886fdac021d105,
      0x3b115eaad349eaedc038bbea8661a93d4a58edfdb172c5f98b6738554a2e343b, 0xaf97d6f0cdc78289438b7cfd507aa7eb3ecba0ad0b90d5ca4d34ec8a178e197c)
  {
    var x0, y0 := 0x18d8152c821e88246f46e0fcb1df9c1ac19f4d2eb4e5783d991c5460151ce52f, 0xb9363d64dd2957d9dbc2b4c309be36e5b66be02f46ec41a715c7a14de4fd91d7;
    var x1, y1 := 0x27d134393f22b9047df3b070585ad237359c23095818eb4155b450ee37f196af, 0x95f3ed719bbb4dc34e88e78de2d4819a8bb3b3da85adbd1b39fc3feb2321a780;
    ThenPlus(0x610da4434fa8d6, 0x1c886fdac021d10, x0, y0, OfG, 0xfd72a29776b5c24529b1686b1fbe10000bf64fb123db2615842f91bcf1ca617a, x1, y1,
      0x5fef0279cb4f68e778f436db9366238e52c98700047b912ab7adcc8cc67daf27, 0xfaebc8b496cd07b9055890e47f401a7321937dd6aac1f749f9fa82d060dfdeb2,
      -0xed2e821ec02261afeeccde89f433ea7d25d7a0deb7327b11250cd5b988e9c59);
    var x2, y2 := 0x0335d0e7a80b7165f41ce7c79ef48371a607c8cf34332ff113c1a72d1ec0f83e, 0xdd88b25d7dfb7663c7b474a477cedfdae243fed25932f9b964ff21251f682ff0;
    ThenTwice(0x610da4434fa8d7, 0x1c886fdac021d10, x1, y1, 0xb1deccafdd0030bf158fb2a837d59c48d303eee475070ef7064f9889716c36eb, x2, y2,
      0xbdcc16926f1f406b9acb16fb8611e8cc8f26dffb899c5593a422fab8c42fb773, 0x7b95d8f2d44650c4f9f69e0cecaae4be0adc86cad7a088848405c365e2d70373,
      0x196f4bb08330339773d81ebc4600dc118ee9e1157831b128135e56f53cd4faa5);
    var x3, y3 := 0xffb6789786306c0e3fa06ca6211c2190bef3caa6d632cc2fe1bc9b5947b84677, 0x224dcd22d169d0b0594d7e9c95735a6ae81f3d3d2357ba455db9fe3810ebb725;
    ThenPlus(0xc21b48869f51ae, 0x3910dfb58043a20, x2, y2, OfG, 0xb7d18efb3635cfc76363e3d1d44cbb644068cd0fc027b73db5a2e7d565ccd45e, x3, y3,
      0x551caaa56004bcbee94e4228e0de72b8a5001949ef169028fe085bcac31958fc, 0x83fd45f5ed8b19935f2a7b077fe137aecce3e3e43bb1cd9458c7ade393d3d679,
      -0xb54ea9eec300f8f8c492676b6796dc8ed922d9a46b8ed1b9cd4632dd563ecc6d);
    var x4, y4 := 0xa2c068433dbda6f1a448b6183530dd0d708002399fb67a94e1c3a23f849ded74, 0xc7eed731b0a4a9bc995dec64fad1e60bd43d088e4493a289a372086515c43ea4;
    ThenTwice(0xc21b48869f51af, 0x3910dfb58043a20, x3, y3, 0x9158e5a8869ac0e0a6c3e8f9a3892732864be732919b7046d1eb3a349d3c71d6, x4, y4,
      -0x2d7531d7dd466b7436d06f01ccde251b02b3ac9d6ce8bee8e901061850f961299, 0x5285d3079a5ec8a4e65205482501adcff77f4ef2c391f3c3f3ba022f6cc0191e,
      0x34c7a73aa8f903d33c31e1344cbfbee56c1d4cfcefc13b343a4f66b1a719da97);
    var x5, y5 := 0xa36b497191b6ab8f33f52eebce602068d38c5b0e9e1d5c377b0e878886eded25, 0xea3be3031a971f53c17e6f206924f4b1dfbfb880885b5657f3666a3b76c2da2d;
    ThenPlus(0x18436910d3ea35e, 0x7221bf6b0087440, x4, y4, OfH, 0x727931347ac4544ef68485938a7b45a44e8469d0966a8ce16b903b299ce24e8c, x5, y5,
      0xb97945fa3477ecd18f9fbf7471d00a2f62f7f627b46f28f5a030990ba76860f, 0x333029324a680a6f491b419d056b25e0e5b411767eb0fbab6e3033ad28424994,
      -0x4c692be86c2299d30022323cee312670959988483fc6ff0d64dc9b1f3d75f3);
    var x6, y6 := 0xbb0b0114c21c70c4d20f6ab5bfa3672ac59dfd9f56d3ee1c66437f63ad6a8ccb, 0xb838126fa7f0da933055db46369dbcf9377ea514223bd6fb36fad0a669d3f211;
    ThenTwice(0x18436910d3ea35e, 0x7221bf6b0087441, x5, y5, 0x38f39a8917c7f944db90dcb60b43b2c7243c97a67c139af2ce8820e2ffc57081, x6, y6,
      -0xd0bd69aa0c6d2c0159d609a6760ecacaa294ef171218f41a31a8600dc8dd251f, 0xcab7b6ab7f3dcb866ed646fcc56a9a70f2279b655de3b11cd1a43a681ce8dd4,
      -0x5416b09bda072d82914e0563bcd3014799c066e43ad146eea49b3990713225c);
    var x7, y7 := 0x12561fb3dc47e1b55ab1541ad1d51976ead1de787175a62e5876f6b93abb01de, 0xc866a9fbb88fc904cf6ea60cd5f951e30b57e185094510255ad58f6a51269a38;
    ThenTwice(0x3086d221a7d46bc, 0xe4437ed6010e882, x6, y6, 0x873edd199c14912310ca1723c1c001ac3e33a322a74e77ba3c52dc9932c492ec, x7, y7,
      -0xd7559f57e57e821a5fb8991f94c588d701e75336045503b37cd0227a250bdddd, 0x47735ca0d9fa8514a6753caadb5045df8bb74dd488d8ed65052647322929a0a4,
      0x5920d05db5c130e8f60683892f27607371c5e78c8a84a6ea23dc2886f8fcb73d);
    var x8, y8 := 0x3b115eaad349eaedc038bbea8661a93d4a58edfdb172c5f98b6738554a2e343b, 0xaf97d6f0cdc78289438b7cfd507aa7eb3ecba0ad0b90d5ca4d34ec8a178e197c;
    ThenPlus(0x610da4434fa8d78, 0x1c886fdac021d104, x7, y7, OfGH, 0x4c7fb6c2f73433485acfaffc8c9e9725b83588261747afe0b29a7a87ef8b2b9e, x8, y8,
      0x26ad708d9b3362bb5d4c5cc364b46a2c03e611cca84cfe6c22ee44acd338291e, 0x16dc143a9ab21037aa73caf1fffb1469c72ebb7522d4879dd11b0fb8696e1e35,
      -0xc2be8a9b1d76773d65c916e73269cd32e481aca087b53aea4710488a57ab106);
  }

  lemma Reach14()
    requires Reached(0x610da4434fa8d79, 0x1c886fdac021d105,
      0x3b115eaad349eaedc038bbea8661a93d4a58edfdb172c5f98b6738554a2e343b, 0xaf97d6f0cdc78289438b7cfd507aa7eb3ecba0ad0b90d5ca4d34ec8a178e197c)
    ensures Reached(0xc21b48869f51af36, 0x3910dfb58043a20a0,
      0xeb455f242d288db3fa489003ad1bc81a07c487cc5d52cc7dc617207776e48a2c, 0x91391f3023e5ebcd17431db8a66e506a83c05f628fcfaa206ecbeec51670c1b7)
  {
    var x0, y0 := 0x3b115eaad349eaedc038bbea8661a93d4a58edfdb172c5f98b6738554a2e343b, 0xaf97d6f0cdc78289438b7cfd507aa7eb3ecba0ad0b90d5ca4d34ec8a178e197c;
    var x1, y1 := 0x8d3f966f596ac85166a58b2b21f4871ac0d2714a3de59f372ea587677d8b5282, 0x594e728fa1e28ce833c2ef632a141ae68df4e8f956aca12459e0653f6c32d611;
    ThenTwice(0x610da4434fa8d79, 0x1c886fdac021d105, x0, y0, 0xa3450160756aea70850735fb8e1967ad7fa36b73aaded02fd6bfea5ddcac0679, x1, y1,
      0xb716fd02ad3b7407fcac11e6b472fbc61dc5eb03365d01e53dcab0a642f06423, 0x6820f25a93875770c5ee810119dc0d7618428608d4409b269b216f0db7431e17,
      -0x346994684e9d33ecd296773eb6aee6483872e2b991252bcdb8213dcd87e795a4);
    var x2, y2 := 0x658d0eec324c6e03cafb4409d3d2cc4ce980f595c69d39391a4dfee09fd9af2b, 0xba7e9e71d5961dcf5624be10a732573c54588df663aae603db609ce6fd68ff8e;
    ThenPlus(0xc21b48869f51af2, 0x3910dfb58043a20a, x1, y1, OfG, 0xc0051a9cb630c1d327f556c2b7b1819b8bf4d84a7c7e20e77056cad32bcf6b5f, x2, y2,
      -0xea1478146d596831080ae2ffd0467f62e8658f5e50f76d9eb997654fb41ae13, 0x9007a8051e2c7594c2a40c117e869dc0885cda5d376cafea5aed41cec6bda0c4,
      0x1dc6b03f71b4e915e0d762369754b18d5fd9a10035888fee431aa19f1a41c976);
    var x3, y3 := 0x266d4d5b3465521a9256f143649c73a1fbf21ea248aaebd910a2ada49f2d6edb, 0x158c11de757e4059caa5df891464d8b25758b78b49f50c4fa823e6a0160867c4;
    ThenTwice(0xc21b48869f51af3, 0x3910dfb58043a20a, x2, y2, 0x77d00491482aad32df7dffa1ea38dc0def5d918254e11e481385755a54374dd2, x3, y3,
      0x35b6f9377cd9e3052b31a6e8c06d45639057f1cc86dccf717c7fb016a9f55343, 0x38130d467d41cf12e88c238ef32c1f06f72df637cf87d9b351cb22f235114a5d,
      0x1d8b0de7fda315330d7a08cb75fdacf81c7cb475db85a35b0ee4497ec4b08112);
    var x4, y4 := 0xef6d62abbe6fcc8a12194af7b0edc648973290526a235b86b7e997b7e5299e3d, 0x6af9d34ea734dab3f42d60f3062f88218a9145f17660619c86322397600a3035;
    ThenTwice(0x18436910d3ea35e6, 0x7221bf6b00874414, x3, y3, 0x4314af98e7ab1a052f471bde1300b5a274cf3921f4fe578dd973759e17901f44, x4, y4,
      -0x6031819a5c4ae094a5c8b3690100452aa82cd48a3ebc25638f63008fe310705, 0x1193d595f19a2a6aa1f6d3cf161497e047d6922975af329a5ee107848ca34b73,
      -0x34ab4374daefa7c3dcb5de162218ef1aa41961c93957e4a2b30af68a4b307ecf);
    var x5, y5 := 0x5f618bf9d72fcf62b3645b8b98439d3e63191762908f784a4c6c6ad1205ec19f, 0xa106e1b7737b01ca6ced2f2a44bcbde7dc1d78c8fb22edf7e1dfb9d535eef00f;
    ThenPlus(0x3086d221a7d46bcc, 0xe4437ed6010e8828, x4, y4, OfG, 0x5e0475c6790634ccc6e5037bb278ced075b43fdb834771837c931b5a3abba11a, x5, y5,
      -0x2b384d78971b2285af2e820c7070410b41544d88ee7edb6f925606fc2f9373cb, 0x22874691a5435b77238a1e580ae064c3c64fefa6e17a820415d996b9d9a1f7d0,
      0x34e6db49c4118eb443029cf894d5b70c14a2661f6a88fba53db9f38550fbdcb8);
    var x6, y6 := 0x32357ed2a37f43d5f46069fc618dd5fe30213e2a8196899f6a9a87ffbd344c32, 0x00732a8f0dd72dc2f229ac8ef9d27f68795207d6e3b4de9dea623f2f63e031cf;
    ThenTwice(0x3086d221a7d46bcd, 0xe4437ed6010e8828, x5, y5, 0x5ecad1647657fe581a37bd643e632e377fe2f589155fcba17cfa4c50fb50d30b, x6, y6,
      0xca392de24640b11a4237a4e1a0b218bf04fe40de09cc2ce81e5920f2f0de2a9, 0x23199274e4b8924e6f0a1b68138d157828ed8e0037a1eaa2fedcc72a7ad93e47,
      0x10b9f68976bd95f8e90e42094777d4bf58aa5c0cf77648472780c4d2199ed2ff);
    var x7, y7 := 0x970474a611dac3ad9b46e7cb3199b085f82fd7b183319a94eeeaacda229721b0, 0x1166374d9fd7027f6085cf4710b3545419355c6a5c2f29c042b0087a218ae485;
    ThenPlus(0x610da4434fa8d79a, 0x1c886fdac021d1050, x6, y6, OfG, 0x192838fd1175c981c29af9fc76286339588195c50307c723bd1927f11d56eb68, x7, y7,
      0x7079bf0b13848c789588e848415de4e7a5fd86fb75e135122c76be25b0e5329, 0x278e173492e27f95cb8ffd4ecbadcec85952e9815714efa0d1269b78924881a,
      -0x9e80cc8fbff802319475ca93d3f399c5b0ec313ecefe235626de70e5c6207bc);
    var x8, y8 := 0xeb455f242d288db3fa489003ad1bc81a07c487cc5d52cc7dc617207776e48a2c, 0x91391f3023e5ebcd17431db8a66e506a83c05f628fcfaa206ecbeec51670c1b7;
    ThenTwice(0x610da4434fa8d79b, 0x1c886fdac021d1050, x7, y7, 0x0f8a34ad26c3b8654ff0002c77c1c44bc7ae23123cefb647058f9ff4f154a14d, x8, y8,
      -0x10926013781e7e79bfdb20453610b97be577473548f940e80b15b0de49b4ff162, 0xf17cc9200f877b99e7608d7350f157ba9dcf34eb7e7bed84e8fe7c2381adf3,
      -0x51d4a11f7d6687ade2da6406f0c1b4a930b8b40fc45d359def6065e7593def8);
  }

  lemma Reach15()
    requires Reached(0xc21b48869f51af36, 0x3910dfb58043a20a0,
      0xeb455f242d288db3fa489003ad1bc81a07c487cc5d52cc7dc617207776e48a2c, 0x91391f3023e5ebcd17431db8a66e506a83c05f628fcfaa206ecbeec51670c1b7)
    ensures Reached(0xc21b48869f51af37a, 0x3910dfb58043a20a1b,
      0x46a9a68f0f2ffaa69aedab8bda632073446604c4068a7611ed203ebce61306b0, 0x9aff9fe5c923ae3e944afc4ea69145e7c0746d401bd88217af968d257c6de77e)
  {
    var x0, y0 := 0xeb455f242d288db3fa489003ad1bc81a07c487cc5d52cc7dc617207776e48a2c, 0x91391f3023e5ebcd17431db8a66e506a83c05f628fcfaa206ecbeec51670c1b7;
    var x1, y1 := 0x63503bf679038030ee53cedea8abd0f7cefd2adafb5959b6efe3162b2e76194a, 0x07c1a219de19d27b1c18c71a9768d04a07604431b454b90a3dd0fa0e2bee7c0b;
    ThenPlus(0xc21b48869f51af36, 0x3910dfb58043a20a0, x0, y0, OfGH, 0x016f07d3562c36429bedf781d94674a0cdb8fc76f3614db20945e9d6f2e1747b, x1, y1,
      -0x7d73f0d81c3621cafc40b1f642fcc0aaf376b835cc6b5ce46a56950a10a901, 0x20e37702e4ff127d5e6b72745b925e64958d46fa6ea1d6cbd127cd521ab7d,
      0xc2ec955f4b547b5894c898c344368491ab6ba224bb8d1a5fe744df91d56d6c);
    var x2, y2 := 0x1ca9f3a89994c40db874e0259bfd1eb402db02a1500667c029a6f350c90af802, 0x87b67cfb5414409c992a22a14b17b92742cd7c81278ab8076fcd1370f084d1d7;
    ThenTwice(0xc21b48869f51af37, 0x3910dfb58043a20a1, x1, y1, 0x201950e56b83966778f2b314459aae46b5fabded93ad7e421e842ea17a2b9fa5, x2, y2,
      -0x71a38553703bc7b309bdf1b4b6ffcd692860f3eb276d8a8e6d4fb3d130491e62, 0x40656ba414016190305503fe2db67321a310a8b96a9691a1fe19d3c7cb056ad,
      0x8dbc59a128b7da1c7e7affec91b3f38e1524d0df5175b508dd5bd7ab1fedb5a);
    var x3, y3 := 0x19c003f6e0efad840fecf0be0def26842e0eb0423cf0405eb23c272b764bb0a2, 0x43e40ca84ea209f945ea761f17f17afe7bbf5a3aa8b6a55a635d7b9ba52c6bfc;
    ThenPlus(0x18436910d3ea35e6e, 0x7221bf6b008744142, x2, y2, OfGH, 0xd112f997f6de288f7f6de37fdce9a51582c1dc18292128b5f8d5ee9b1528cc84, x3, y3,
      0x6145c717af111081ad304027550ca9c4005668d8ef93c8093d8a415abf84e753, 0xaabffcf22dce6de9554a0ed50517090fb6ea07a5a0dd0627e7c8ddaf9fa6ed04,
      0x26133fa372d551747b1be2de0bcea2b2a15c9a2781058b2629a8d0b8eed2ee3);
    var x4, y4 := 0x56093cab70dfb8116980be92bf328698ad616acefc452b05f4667412ac4adf5e, 0x59c6088f7d1cb86275a93b35e9ce0ae60ecc3da8aacf569f4cd4e38a2aa04bf8;
    ThenTwice(0x18436910d3ea35e6f, 0x7221bf6b008744143, x3, y3, 0x980c018fb6a415947f1833c45e158397352e24bdb3db18ccfbcb70f519c5aa95, x4, y4,
      0x48dffad88ff6bd077f7d6b603114cbe86a67274c3d4af94cffaabc2ba6faddf4, 0x5a4e426ace5e691d32a1a47d045eafffe156341afba716f5ba6d614adaed5e99,
      -0x23ce4d77ff0f593e6edae31b6d4f32441a2684dec5c68aa3555e96717130baa0);
    var x5, y5 := 0xd0be8670967dcf2c1328ee4f4dc233ea7ade925a0e10828a5b61a0861b968c8b, 0x5a0dfeb6ee027bf2df8443567075ab656b3d8389ea9da1ced7f92f17eb9c461b;
    ThenTwice(0x3086d221a7d46bcde, 0xe4437ed6010e88286, x4, y4, 0xa3f8b4f18fd6cc03b69ab1ceda0a1ce61773954e1211d2d29174c09478b9f4da, x5, y5,
      0x1c41fe35b04d96eaece3cee6ef60d4a2e704022b30607e67db6d72dc24b9e56c, 0x6906a80ab116ce2e33ddce13228906d47206981c836cba1ed8ba101d8d4e0f33,
      -0x4e98a4533f6b6472f72db1caee644ffcc63cf63d1a9e729313545884b36d75ab);
    var x6, y6 := 0xcf837efc62ba23994679ff0d662e48b62affd3cefbdae48c0baad024c2ce32bd, 0x62715ce2743a6c30500e284ec7455147d2604ba47ccf02052e97e984b20f5a9b;
    ThenPlus(0x610da4434fa8d79bc, 0x1c886fdac021d1050c, x5, y5, OfGH, 0xf794d9068ce02478239ce65a2c3dcce623c12ecf6442a0247e250a4588e51232, x6, y6,
      -0x3af85cef8c1acbd9a32164f6d4532b18961463139b26336398025481b3100993, 0xef7091564b678488e57d401141e604ff22627f7cdc5def70aca28c410491f2f4,
      0x130ab5c7e80c02ada4088cf133aaa2fb636006360c39d735eddca2f4f3dd35a);
    var x7, y7 := 0x313ad336d2ea375354d054385f346e95cfd985f7974b07ea3c0f488955e85624, 0x839c3241b55166de9cc6c59ca6920a794553fa250fe0487652bcb1a7a91f6372;
    ThenTwice(0x610da4434fa8d79bd, 0x1c886fdac021d1050d, x6, y6, 0xa5f86ac386fa7f60835ec20d9b4b373510eff5ea11223adad6c670450f10a331, x7, y7,
      -0x178fc9139f4d78fb9a3acadcd50c43cc4290ec140567824db472ceb0be6c82ccb, 0x6b9a2aaf135aeea78e9bda0631036b2e4d1f65743163c982b2a10360907538ad,
      0x669e6f1fb903e5617da0e08834d662b5d81e5ffca06cdc561a669c09f7b88284);
    var x8, y8 := 0x46a9a68f0f2ffaa69aedab8bda632073446604c4068a7611ed203ebce61306b0, 0x9aff9fe5c923ae3e944afc4ea69145e7c0746d401bd88217af968d257c6de77e;
    ThenPlus(0xc21b48869f51af37a, 0x3910dfb58043a20a1a, x7, y7, OfH, 0x3696758823b9af7113940506348d330affc2fc8b5fbdf3bfd3f46fec0e859010, x8, y8,
      0x1dbc042a32bfeed72a0eee169117ec0f2c87dccc5c069f7937f09af9c52ade85, 0xba3d2036091ecab016974469052b9a6f9d90e33ad14185415f4ce6a6d21046f,
      -0x491f95b7edf552beff36a57af166dac71bd7b111cb0a6252dbb78800ba5cb50);
  }

  lemma Reach16()
    requires Reached(0xc21b48869f51af37a, 0x3910dfb58043a20a1b,
      0x46a9a68f0f2ffaa69aedab8bda632073446604c4068a7611ed203ebce61306b0, 0x9aff9fe5c923ae3e944afc4ea69145e7c0746d401bd88217af968d257c6de77e)
    ensures Reached(0x18436910d3ea35e6f42, 0x7221bf6b0087441437a,
      0x01623add302bfa23ca9bba4baec1ab40e7f9a82722cd1a4cb8a0091f0f84df62, 0x1a93d81fda6cacfac53a24681959cbfb3d28e00b7a229375f6e7c3380f0e493c)
  {
    var x0, y0 := 0x46a9a68f0f2ffaa69aedab8bda632073446604c4068a7611ed203ebce61306b0, 0x9aff9fe5c923ae3e944afc4ea69145e7c0746d401bd88217af968d257c6de77e;
    var x1, y1 := 0x8fd41a23125a4df13d53aeae2729d597157d3cdf7c3096a561a9bc6764dd8e96, 0x78aaae4cb70d9a4d1fbc0296c009ef4009cace4c093f9cde5223b0a0f9c28838;
    ThenTwice(0xc21b48869f51af37a, 0x3910dfb58043a20a1b, x0, y0, 0x66786885275a0d1d9e33ddf00cf873201368877bf28ffa59111d9ecbabc5aee9, x1, y1,
      0x4191db173e3860a2bf470c6af6cc157350aed58f9593a4e52f5522fd0f846264, 0x29042bec42dd1c1afa1be678214cda368406b8fe44b2a4f37ca8157208f9afd5,
      -0x1d4953d273e5ba7d6bed8e88bdaa772600621fd3aef9d90d7ece94febae54db4);
    var x2, y2 := 0x0333438a6e33655bb104e997f3010bce1c42a686b12a4953d89226f1e7fd79c9, 0xa8cb98831d7cc7d6fb8766bf494804808d57eb6ddbdd4ab5f50bd0baf4bbb02d;
    ThenPlus(0x18436910d3ea35e6f4, 0x7221bf6b0087441436, x1, y1, OfH, 0x729cf8e0e00dbb4caf2310aec413c2892251a30d0650512930f9ec7bb927f22f, x2, y2,
      0x1414091c2a720ee39f7a1f366bb875d9dcfde93cb90098cd70fb084e15b9f944, 0x33502de88b91c33008750fa12aa0a4abdd1559781524f1938a7400b1a4feba39,
      0x3ef5da4a15d146b1b911c31a9ff1ae6e48a3712f9bbcb03463ed723789012b22);
    var x3, y3 := 0x7650359eb24785a4399629c90b5f55293624b66df5772cda41140077912f086b, 0xda7cabed39f47ba9d21ed73769923c9e45ec5d301099db988f21deaf3b08d30e;
    ThenTwice(0x18436910d3ea35e6f4, 0x7221bf6b0087441437, x2, y2, 0x0a7d39bd672fb7b89fe25904f777806040189c8680b67458452fbc5ace699299, x3, y3,
      0xdb65155f04849c7d07ff62b37b81e07a2060eb4637f917eaff68e732a0e0259, 0x6e05c43c0c63089ca6be89bc56fabe0413f9c19ad048ccd4b8456ef8cf72cc,
      -0x4b7708d9b395d88a5a82d3d7352906155c1550689134738b6a6908d669a0683);
    var x4, y4 := 0xf38411fd88b0aa968ef62668299c0b7a511528a1183d71d08cde1595a778856d, 0x545627f0206471afc3fb1ba59e24a414d597815d110653aa131b7f80fd206b81;
    ThenPlus(0x3086d221a7d46bcde8, 0xe4437ed6010e88286e, x3, y3, OfH, 0xeaf8066935f2b6a5d47c5c5c6aa343fbe6f30979b3b8f03debfb7f122c7e8310, x4, y4,
      0x4094e1f17299af0097a8d04497567ee47b588e875f21d7a306b867b946d42f19, 0xd7aa5c04c2a155edb6c70988862a9c54aa433aa2cca3210d96ca5f97ca66da33,
      -0x72eab4ced7adde87a1d8f5ae9859558a5e4b44117e3b3595dab08c1c9ec3cf81);
    var x5, y5 := 0x9652ee465460de09f9504ba015a44987331130e08b08b4d7cde9dbe0476c177a, 0x15dcfa288a28be4279b152ebbc351221d2468686942da349eac05d1ba8c7b56d;
    ThenTwice(0x3086d221a7d46bcde8, 0xe4437ed6010e88286f, x4, y4, 0x9c30f8ad085280be3f73273b4cc430fec76edc256428f67764aac7c7785579ce, x5, y5,
      -0x25002b6090fd27bceac39d12b6a516d4bf4c6ef51ed03a4545bf23d849ac38b91, 0x5f4bb871149760ec3de401b278087538ff5e9b455f6e523e9ab640d88faeab90,
      0x38dbc580ee109ed0ab60eb9e95cce7c2bdc5def46c170128157aed9a7b2bd324);
    var x6, y6 := 0x76bc30724b205a0f5194b430f3f3b05b6a338c32e5d8fd5381430e5ff66a2486, 0x80f280ed40071f4c90166d8fb6d3c87f313fe8e5e19c6ef6020c6de1e69b5386;
    ThenTwice(0x610da4434fa8d79bd0, 0x1c886fdac021d1050de, x5, y5, 0x79bf216eae7b3c557ca063b22904b7e99e672b081f3b76a007d359e207cae5e9, x6, y6,
      -0xf404545a4dd7b3973c39e5ce53119edb12e40315dd101b6f7b7af2672bd8659e, 0x39e63c4d887693c305c13a82dff13f30e8af7d5fbbd31cb353accd5a342e6619,
      0xf05d550f057f5b6701ca8995d0b688ef5589e45b548bb558a058b636e3cb9af);
    var x7, y7 := 0x0a30df6dfff96270d85a28f8ae8e326670927a2c2a0edeee988692f02cc7e4b8, 0x23ac2d8832fa00420dc28418621d6a32b4f2c0ae3de5dbaa1745c9d2395efe6e;
    ThenPlus(0xc21b48869f51af37a0, 0x3910dfb58043a20a1bc, x6, y6, OfGH, 0x99665c251d0f66b1181c9d3d7334feee2de4bf313cb110e2ce9527b00badcb31, x7, y7,
      0x1165c70dadfd07fedf3a1198dc4c3f26cb3fb2e8e2463a18b347d94cb3933522, 0x5beb8311eb7a4349ff80e1779b5fae38bda62a148fafc2a435acdf0fc5064cfd,
      0x410aa9ffa632cc0711cec4c05e41993c1fadfa7ec31896fe6753cff74a20c8a6);
    var x8, y8 := 0x01623add302bfa23ca9bba4baec1ab40e7f9a82722cd1a4cb8a0091f0f84df62, 0x1a93d81fda6cacfac53a24681959cbfb3d28e00b7a229375f6e7c3380f0e493c;
    ThenTwice(0xc21b48869f51af37a1, 0x3910dfb58043a20a1bd, x7, y7, 0x211817114eb7fb614ca33d612666fd14538cc4ac89b18f2a5863bbae2b2779c4, x8, y8,
      0x8018a17fce9d4dd0efb0cac9e7f0e0e87c957dd765d590e87825a27c10e5750, 0x4473836cb9e4e9ed3cff488b77a586885cf3bbbeb6916c92edd8844c3cbf922,
      0x12377614194307eae201e3d38df86319226d89d6080f00ceba9b869b0543d32);
  }

  lemma Reach17()
    requires Reached(0x18436910d3ea35e6f42, 0x7221bf6b0087441437a,
      0x01623add302bfa23ca9bba4baec1ab40e7f9a82722cd1a4cb8a0091f0f84df62, 0x1a93d81fda6cacfac53a24681959cbfb3d28e00b7a229375f6e7c3380f0e493c)
    ensures Reached(0x18436910d3ea35e6f436, 0x7221bf6b0087441437aa,
      0x420754864897168f68f1aeab6e951b134ebfce6d92f73e1c6cd044be92435fa5, 0x2d41d28c578f5007e4dad0499d9d283d5bb09c83d2154de956c589e387413896)
  {
    var x0, y0 := 0x01623add302bfa23ca9bba4baec1ab40e7f9a82722cd1a4cb8a0091f0f84df62, 0x1a93d81fda6cacfac53a24681959cbfb3d28e00b7a229375f6e7c3380f0e493c;
    var x1, y1 := 0x9ef1b048412c31238c7d542be2efdfbf0254c161e4ebc8ebe6f1e651f8be582f, 0x24e454bf6eb1b1b4fa5ad3279bd112fc3bee828d3abdfaed6b40a384266951f9;
    ThenPlus(0x18436910d3ea35e6f42, 0x7221bf6b0087441437a, x0, y0, OfG, 0x963aa2c0851693d883ce13207bba5d002e37b26e71f0809d21894a7697237eec, x1, y1,
      0x46a192f78624de847fe8b69706f426846312bccfa4c6ce01b8e721fb0b377b74, 0x5828c427c2aafcb532bd7afdf89568883336fc231e9f8d85c81892026fd2df49,
      -0x5c7625789c0738a88e2293c563115bb43f284e30c929f91a49cd57248132539f);
    var x2, y2 := 0x461080862d7dcbe355e0a43c38584af866b6de61ec6055e9849da317f85e0609, 0x50f36e1707c3dbf56f4af9026b46e6aaaf1f65aca1777e128b64537cd7cf9f7c;
    ThenTwice(0x18436910d3ea35e6f43, 0x7221bf6b0087441437a, x1, y1, 0x9d7764532c62630f2cddc751759174a728abe93d41923d7569f1d9665a730526, x2, y2,
      -0xfaab342fc2d3d75234da9e7f808df05e9f0d2036523c6f2c9484a7258d7f04b9, 0x60dba8bc711506ab6205cb6ac8d5ece5c78a44a9728b5b11e5eb32aacc017853,
      0x36ab8dcc105c4293f15a73d6fc03e1aee0982e1b7e9b38ba41a6a73ddcd59e01);
    var x3, y3 := 0xff5f341a6e9a0648c3c972e7019753bb62c881b08622ba2d1b368e6665b58670, 0x3fe4cceaea29a649441738b8fb6325c33cf08776943ffd7c97612e6ae36f3006;
    ThenPlus(0x3086d221a7d46bcde86, 0xe4437ed6010e88286f4, x2, y2, OfH, 0xbcb09866c28a090c57db6eac56e4de3b59ca2b17afa737f6c9a5ffc61ed4bbfe, x3, y3,
      0x576caa612192fd1e06bdc453457ddd43e2579ca11d52633b5f1249eab11d164f, 0x8b13d9a8d5c06b5a1696769459a9a4b411c5e65721c29a0f158c7dbc55aa9840,
      -0x8895a04d728aa1153139b9ac7ce920e73f2f8afded751e2cf7a90fc927afc78c);
    var x4, y4 := 0x1a22ddf2881b503742abad942e361a32ae94b8b913ed54efc3741d495760d4c6, 0xbbd8b9a81d613e83e8081caf890461ea4a3995acd2235043eef9248e8bd748fc;
    ThenTwice(0x3086d221a7d46bcde86, 0xe4437ed6010e88286f5, x3, y3, 0x244123409850bb9b4eeb5638826c60d11ce510ffc73c0089e83c3ce68d4af4ba, x4, y4,
      -0x2ea238a322c11ba1835a64365b3dfc1544c16a97861604f2074989402387b1038, 0x522627d167ec7b5895a813bb4e4532c4a721e1e990ecfda669aa1233b2dace2,
      0x2076d00093cc744465a192689ecf2d9cac63c6845b9fc491151f0309b30b991e);
    var x5, y5 := 0x6275869cad1b931bee7ea8ca215034bcebeaf7d3c2e6ea6f497d0507dc930863, 0x5adba7585e7a396f82bb3e21183d02cb12d8b075e7e2cc804120d031706dc6b6;
    ThenPlus(0x610da4434fa8d79bd0c, 0x1c886fdac021d1050dea, x4, y4, OfG, 0x6dcd74cc5e19dc2ecd38a3aaeb25951cd870b72f4a01be28b226664994b0a3d4, x5, y5,
      0x2901f44ef1dbaaa93c111cbdf7f01f8d91accea193d23dd2bc7ecc724e1d5b94, 0x2f189a5a4cba9358090f3cf72fcc7f356dc849b7e8cd32e331fcd1004872eb61,
      -0x1f053d00b2e1e63fbcc5c655172f56048043aa2d7d4a8bf17ee84045896eab2a);
    var x6, y6 := 0x081ab1e7c97544ba3c79b1f81633dc7e0f7b172a67a3cfe4afbd7fe7329dfcc1, 0x3b4f92dfe84d051b4fd1fec78485d982dcc15b7b04082ba1f1d1d22304683b3e;
    ThenTwice(0x610da4434fa8d79bd0d, 0x1c886fdac021d1050dea, x5, y5, 0x8524f4dfbe641add09f476f3f1db57a057afe1be6d486c23df460e7e8be2cc32, x6, y6,
      -0x13181b9267be89a76b2e4d6d7b40bd9ca19e40679559241a77a0a2a04bfc98ad, 0x453f6bc644fcd68d4db7b77162da7d359d9a4c161f15f9a9d86a1842c0726753,
      0x2efe3bb56ec3db7d2cf2d6283dbd55b5db3ca5117a2c978dce250d5735640350);
    var x7, y7 := 0xe996dad643363b839b4d2087c10e0a4a9f90d95eafa5ee3c59118542f602634c, 0xe62a5cff9382f1d9fe84dde9b8fd378e0086030df0694e0a3dbc0c087557d6be;
    ThenPlus(0xc21b48869f51af37a1a, 0x3910dfb58043a20a1bd4, x6, y6, OfGH, 0x5e6bec237ec186c084a7f8fbbdad5f3b5a23784518c56823e821f4b58942699a, x7, y7,
      0x33835a53dd83aacd57aba96402e42ddd8429cb4ab6497f08e24df4c4c40431ee, 0x22d36ee950938b5cbe7b1f6ef285956f0a7232b5c194bec8b99173036aa2b8c9,
      -0x532aa5ea65bcc08e6af9e8da01cd9488cf13daaf494a8469517772b00ffa7c86);
    var x8, y8 := 0x420754864897168f68f1aeab6e951b134ebfce6d92f73e1c6cd044be92435fa5, 0x2d41d28c578f5007e4dad0499d9d283d5bb09c83d2154de956c589e387413896;
    ThenTwice(0xc21b48869f51af37a1b, 0x3910dfb58043a20a1bd5, x7, y7, 0xdce9e59be00a075d7aef8d297f2c02e93250af6c9de0b35117f3b8fda00cf4ce, x8, y8,
      -0xf22e73e8fa35b253953c7ee609e802647ed119dbc5787d7834f0b3b2a4b7ca98, 0xbea2d857acbf4ca514d93919e365617e2411fb20d98e7a73e48909ffcf4bf429,
      0x90986f5763dbe22aeea472d57e5a7d58959eb29a79e3a0d88993104b20c89a52);
  }

  lemma Reach18()
    requires Reached(0x18436910d3ea35e6f436, 0x7221bf6b0087441437aa,
      0x420754864897168f68f1aeab6e951b134ebfce6d92f73e1c6cd044be92435fa5, 0x2d41d28c578f5007e4dad0499d9d283d5bb09c83d2154de956c589e387413896)
    ensures Reached(0x3086d221a7d46bcde86c8, 0xe4437ed6010e88286f546,
      0x2b298e7b0a0e3a782867371c10c179a51b4e423f3683caacdc7a87da6c63510d, 0xb689d0f1009c0d51a0ef5f515934bb49badfc319a2a7b4b3162ebbf506d66490)
  {
    var x0, y0 := 0x420754864897168f68f1aeab6e951b134ebfce6d92f73e1c6cd044be92435fa5, 0x2d41d28c578f5007e4dad0499d9d283d5bb09c83d2154de956c589e387413896;
    var x1, y1 := 0x2098d03c60aff93ef3cb90c6aec936f50e51f786e7abbcc4055975b754ded5cf, 0xd648064e723df11fcc79d40ff341234fc7ff4c9ef852d3ee67fce872087c575a;
    ThenTwice(0x18436910d3ea35e6f436, 0x7221bf6b0087441437aa, x0, y0, 0x77055e37b81b66ae5b6beb95ce3b7bedf278253a5ae19f4a561862dc4da890e9, x1, y1,
      -0x9023fc02d285273a0103af375687a3da430fac6bfd7befc31c51a2a477f5531, 0x3755fdb49e03a1dcdb6377d478586c61cc6db34558bd2860d902b0aa53cb7a88,
      0xf8b12f4cb9a885188af290049424b7b15c8aae6aec5cd35217ceadcd7fdb60a);
    var x2, y2 := 0xa0001adfe8909432f66263c8758124585e87882bfabbdc7af7bca2f14bb6fb51, 0x21b8a3a0ec2f6403df8efb3a020288369e5040722183278221d80ea6a49fe7b9;
    ThenTwice(0x3086d221a7d46bcde86c, 0xe4437ed6010e88286f54, x1, y1, 0x59b0ec5b4a46f5823eed452bdea70222ab84dedf673b2a2ce3b6ee14417f5563, x2, y2,
      0x89b29543bab6c35a5cd0e7e3a9ee195612b0e653d9923200a3398a4a786cd0d7, 0x1f6c7e9d5163e9c6db7f48904c6879489127fd421bee66a8917318c9dffe9fc6,
      -0x2ca2f596d227f5ae1289d396e1d737274508817a1a08a4de1af507b7970db7f7);
    var x3, y3 := 0x05f4b8e68c4fafbf08b10ec85aa5a333d356fafc34c28cffd11d8f5450ab7f99, 0x926d14812bef928deaa8198943c7ff65516b72d9e623105621546a39a21d1bf3;
    ThenPlus(0x610da4434fa8d79bd0d8, 0x1c886fdac021d1050dea8, x2, y2, OfG, 0x0e6cc9579fae5c08a541383eed03aaf47ce2b3847d65c756f3fe18c64d05d359, x3, y3,
      -0x227d9ac14c3cf84bf6d3ac42968ff052ec34095944e310e078d2dc02b783db0, 0xd0144015c083ec5200bfa30dc94c581606e9f319e9763f5a783de92f7c4dc1,
      0x8ae1550a21f8a03c81ee64f4fa71227e393a191c964b7565a85540a01403e74);
    var x4, y4 := 0x38d1ee0f1203e2987c1cd5e6e231c1ba56594cd11ed25e1f311958c847742f37, 0x74baf4bca23742252232fe09960b413f75e3dba026ed844ece1a6dc61b1b58eb;
    ThenTwice(0x610da4434fa8d79bd0d9, 0x1c886fdac021d1050dea8, x3, y3, 0xd9ee5eaa4d3cf8a89be340d8423fa5fc6a413b0795faa0707d31627a521bcb86, x4, y4,
      0xf8e330620d6ae3609208ad9ad3d3b97440cdb3411bbf5c0ac7e84d8c42f6cfbf, 0xb985fa70de9a7cefa4aced000e32ea3b0bf466c57fe517280db40e4e1d377a35,
      -0x2b4cde85d4c4e0dffeaf0aa1cb250b2abbefd134306d3ee5cc2f0db6540fef0e);
    var x5, y5 := 0x13acb0efdeeb06efe7d4cdc718eb1d2b5c7236b2e48488b05f44ea6fc91464a9, 0xe61d77ec89c1718f79155bf6797e796ca80e9572902b0b948cb45080ea67e392;
    ThenPlus(0xc21b48869f51af37a1b2, 0x3910dfb58043a20a1bd50, x4, y4, OfH, 0x03e622d884ab873ce8b0732012975a453186466096a33ceba827aa990c459d2f, x5, y5,
      0x202198925952114e1a9d34a49e7fa9db85153ecfaeb530bacaff84832d51160, 0xf33b3b4e8a3c02507fabde92ddd7e4687d90ee39a90d32dc6c2d1cfab78ea,
      0x90d43aa46b01082140de90c310335401caf3c837cc2b8a9e89adb86e87517b);
    var x6, y6 := 0xbdf74525624757cbb4ad270d0518a23c68c9ca3f486566f50febc6ef700fa517, 0xc643e5725f70b037ca02a2037da946f38d86061e3cb2c1ff5a5ae3d1085d7921;
    ThenTwice(0xc21b48869f51af37a1b2, 0x3910dfb58043a20a1bd51, x5, y5, 0x43f548cfda1c8efb90d88dcff173a5d12b2abd0e89ffc3effeb16420564c113b, x6, y6,
      0x75a31fce12f60d1bd677b80f75c733b2539fc7d28348059360ddec0275d7f3b7, 0x120a4f213eb800f3dfc5fbbc5ff58b0b29e3b35d289fa538c3374da8c33ea1d0,
      -0x2d34ae9915ab463494c0d8abcb35d97ed4e15fb0ecc8bfeed4874f4128d30883);
    var x7, y7 := 0x19661546bec209abcb75dcc97e2c916c154261ae11d6a00fe7cbf2de9bd5c105, 0x90aa02ebb673e2812959f5a0f6d40a942c08f6295cf1029bdda8370b7410f914;
    ThenPlus(0x18436910d3ea35e6f4364, 0x7221bf6b0087441437aa2, x6, y6, OfH, 0x2a2bbb1e67186f5f0b65230c3d7d1cdfcab23deeecc1a5687b1b8592e3d2d0c9, x7, y7,
      -0x366c8dcb4bb12efdcec83d8464671c9c414d6cbeba65b86bcee5bb5bb41e9e, 0x6f260de5ed014fa9f9ea459c4a2e289e8eef8d876e932f12c3d30bde55fca36,
      0x1b1bee872a7ab33602ef39e3161d4e822733123c850a3e71bb1fd30803deb2a3);
    var x8, y8 := 0x2b298e7b0a0e3a782867371c10c179a51b4e423f3683caacdc7a87da6c63510d, 0xb689d0f1009c0d51a0ef5f515934bb49badfc319a2a7b4b3162ebbf506d66490;
    ThenTwice(0x18436910d3ea35e6f4364, 0x7221bf6b0087441437aa3, x7, y7, 0x6df0ff5a711f430f69e9f4c9949f55e86ee2e581f798a60b9b31a24352ecb9c7, x8, y8,
      0x74b1db44c65610d921fb214eb9d860f2add158ef9487bfc35951f105814ac1c3, 0x2f371c52cc9e0708e0a849fa1b7d50dc38cf31aaac098ba6ff235920c017ab86,
      -0x7a0f394e1632f6b1da6904c7371d0895cbbfcd09106d980d21ed10a32821ee4);
  }

  lemma Reach19()
    requires Reached(0x3086d221a7d46bcde86c8, 0xe4437ed6010e88286f546,
      0x2b298e7b0a0e3a782867371c10c179a51b4e423f3683caacdc7a87da6c63510d, 0xb689d0f1009c0d51a0ef5f515934bb49badfc319a2a7b4b3162ebbf506d66490)
    ensures Reached(0x3086d221a7d46bcde86c90, 0xe4437ed6010e88286f547e,
      0xb400ebd7ed7780bc34431d68ce4fd64b00ea815a98552d52d8780739cedd90f1, 0xa72974124efa987559b886d467ed343b040a5db4d02d1dbd9175d6f1331610ec)
  {
    var x0, y0 := 0x2b298e7b0a0e3a782867371c10c179a51b4e423f3683caacdc7a87da6c63510d, 0xb689d0f1009c0d51a0ef5f515934bb49badfc319a2a7b4b3162ebbf506d66490;
    var x1, y1 := 0xe30c6472c853b8ad8cda320027b390cb6347d66bedea24d3eeca9d02a6e7cc7d, 0x2d1b01054f83962b9798bf9e2bcf3a18204369a1b5eb49c4767c33661c216d26;
    ThenPlus(0x3086d221a7d46bcde86c8, 0xe4437ed6010e88286f546, x0, y0, OfGH, 0x217e809b14048e20034c7af7c7ee07bec012b71b0a8ebfe6a32faaafb7ca5d64, x1, y1,
      0xdafb53e4b1cef79fc28fd8dd4e79fedfd80c122aaf37544ac3efa08e2390236, 0x461dbaad46c5315f591cb572774718d29d5f8cfaa0dd527fac7843e70e4b00a,
      -0x180f1b9b0f2b05f5778d891e2de08418dbcb5a22d1fe291ce31b422811aa126a);
    var x2, y2 := 0x8b7e51f534ec65f30bbbef566f696340ae14e656dddd4d98e4a347a17cdb5bf3, 0xa91e0366a9d62334968026c2e5327436d4362fdaa32cb3f071ef529599179525;
    ThenTwice(0x3086d221a7d46bcde86c9, 0xe4437ed6010e88286f547, x1, y1, 0x0c0b3bdbcc18675d752ee6ae4134acfb638451e4d6579fc33ac2f749a24b302e, x2, y2,
      -0x257de72b4e7d263c3953c37b4714704b097d33b5575adb28ece6149e4a1c245fd, 0x910e1ace04e093b9214ca2c3ae99cb56bab31f9732e7b74cbf827bf0e20959,
      0x41e807198e87f1f22e31724b3ca0985fac1b0278f6a7ea16241e56aad12fc4f);
    var x3, y3 := 0xe961acdf0c53e9ed3e1c5cf35ded4e17e18104004b11ca55f60d2ee4be9d2b00, 0xf39b7b959f187f93e7c43a26f11751dd640e2ba5fbaba6b56dc0a80db31408e1;
    ThenPlus(0x610da4434fa8d79bd0d92, 0x1c886fdac021d1050dea8e, x2, y2, OfH, 0xcee0fbb49b90011f49fb825752a6efca5c6c790e62d1de6933782137a078cb15, x3, y3,
      0x27beb1bedcdca19e5ef107ef1980378e3148a2d17aebea147fd8a09c6cb6b87a, 0xa72edad01de7a647d50edf5903e6e21c3b7b1fdc76c0356a527a2ddf7f9920f5,
      -0x4bdf7667defe71bcd89e9dd3ab3fe12cb22733f00297b21304a58beaca669f99);
    var x4, y4 := 0xcb5c796417ab15c9e2c6e2725e60d822f25d0960b150ecfb23a06eca22435b87, 0x742a2d5dd3132da7573da50eb78053f4409cb0716262ad48407ce83adff1bbac;
    ThenTwice(0x610da4434fa8d79bd0d92, 0x1c886fdac021d1050dea8f, x3, y3, 0x7b3d9d6b50e05f91d45ed6b84ef2478397da1cdc92a46b0abd2e9c19bcdfc66c, x4, y4,
      -0x193bc2963cef3533c68732bb99fef0191d1b788e45fc10ac9c0289fb12bf21a58, 0x3b54441985a8f4f397e81a4dd1f479f14dbbf8c478b13406f6217e77ca355547,
      0xe73b96f1e14466fd5f83c3159fe0754dabdb47814a6c64e73b9a9cca645c4b1);
    var x5, y5 := 0x9aed599377307975635f04ccd6e092e9923c2e3a0127e4cfa8cfec927f456011, 0xd81199571729d103c91fdf040b12e16aed2d169ef3125c590e562a6ecaab5dc0;
    ThenPlus(0xc21b48869f51af37a1b24, 0x3910dfb58043a20a1bd51e, x4, y4, OfH, 0x7f0de8bfaf11d4dc07b39e484eb8d8ef75801b0f22b7460941f25bd10774e8d7, x5, y5,
      -0x749e7eb862ef7ea79426d229a7fe39f83410843c946f29628f8e5c8ca669d81, 0x3f0ecdafa6c775d8f420cfd5a71a66b8bc4310a1a0ecebc1b6854cb13251a832,
      0x1809c27616121e451681d0725d91c8069fab90daf90782b4b355d5b23d2ab2b2);
    var x6, y6 := 0x6688a97a5e6cb58aa076bdac48a4a8b3367c672a6df705612d6764a9655e15e7, 0xc330c1e6298b49e0bb8f0b57e8de9185c93a94bd5890f9cfeb4f00d8d7ca3349;
    ThenTwice(0xc21b48869f51af37a1b24, 0x3910dfb58043a20a1bd51f, x5, y5, 0x0c85e3253105de5e458a9ee856c7e306dee754a9ac6ed0bddaf3e245e70a0629, x6, y6,
      -0x104239b65b4e9370e657b69af308017a31d9abaaec7f41e746a6ed77d82548a8d, 0x9cd3514ac8774981e9f6c55ce44d9cd306b22b6b87c484d6e4e8f4cac961f8,
      0x2901f0d8eef38a8cf43850b9eca908fb11579567e2d950a6c662dab169ade1f);
    var x7, y7 := 0xbd0197e7b8d95c9a38e69ce90cd2df7abd8b5582d5739f30fc0cf2f0a34b1cd8, 0x3fb61b6db7e817e9b808576f46ea0e8b141914fe8833b3bf54e0e25bd2fae3f7;
    ThenPlus(0x18436910d3ea35e6f43648, 0x7221bf6b0087441437aa3e, x6, y6, OfH, 0xf8deea636210838ccc8f46e8280b014f81dcfc2aee7315aee121b34d923a120c, x7, y7,
      0x53be19ec2133e8c37a2db36cfc1e1a8916d3d2abaf3152c15cf1297b5670531e, 0xf1f0a83be8f7e960235c2c856e7cb16106d2ff3959ee581aa494777177ca32da,
      -0x54107304ce41b445789bc8f5efc1257ccb65b1414c0726566a878c87ed114d34);
    var x8, y8 := 0xb400ebd7ed7780bc34431d68ce4fd64b00ea815a98552d52d8780739cedd90f1, 0xa72974124efa987559b886d467ed343b040a5db4d02d1dbd9175d6f1331610ec;
    ThenTwice(0x18436910d3ea35e6f43648, 0x7221bf6b0087441437aa3f, x7, y7, 0x374b0f7973916f6326248a8c902f5bbe47d4cbf021ae5e5274d47af985ef1aeb, x8, y8,
      -0x1871c72bb107870cf8742b1cc863fedb2006e8fe3893ecbaecaaf505d5f8e759a, 0xbf156a841c1aa3d5d30f3d65e25724ad0be5ac7f9d4909332e18c1c5db58a68,
      0x1f1c8b51cc946e14eb1587fe05d6432f0a75a4d7d270f790a9c815a36d5b7f6);
  }

  lemma Reach20()
    requires Reached(0x3086d221a7d46bcde86c90, 0xe4437ed6010e88286f547e,
      0xb400ebd7ed7780bc34431d68ce4fd64b00ea815a98552d52d8780739cedd90f1, 0xa72974124efa987559b886d467ed343b040a5db4d02d1dbd9175d6f1331610ec)
    ensures Reached(0x3086d221a7d46bcde86c90e, 0xe4437ed6010e88286f547fa,
      0x1ec741c9e31a25d2c2f745c4c3f7ed7adbfea648bfb2ce7b830488f7aa096d2e, 0x1a99a451df8aa57cadfb9aef72784d5195e4ca76f9a8bff7dfea208a0025e9e1)
  {
    var x0, y0 := 0xb400ebd7ed7780bc34431d68ce4fd64b00ea815a98552d52d8780739cedd90f1, 0xa72974124efa987559b886d467ed343b040a5db4d02d1dbd9175d6f1331610ec;
    var x1, y1 := 0x06598f532536b0e312b2699aaf8a9b250b2d80fc7ec8f771d85fccb5a4f60c99, 0x890fcfdb6efc81ceefef62e3914419fb036ac854677f79a382dab4c548f35a61;
    ThenPlus(0x3086d221a7d46bcde86c90, 0xe4437ed6010e88286f547e, x0, y0, OfH, 0xffb8ce634c227db636289acdd3dacadf372091fb2f58513a00ec60d61dc737b2, x1, y1,
      0x8a98db1f1140c6ac3bd4f676503615c1fc5824632ee2fc26c27915d90319e47, 0xff71b09326ce1d113175b825a2c3581a533ebae034126020f6c71f22a42845c1,
      0xad771172cab933144bcba840d02f75a7d95c9c8ebb8f5b79a5f8eda1141d248d);
    var x2, y2 := 0x54a1a89a499e116faed5fdcef4c07dbecd83124447ce860f3eab07da6e6e6c02, 0x2d870abe30cd270e7937d355c07faba9edd7e1ea6f03e6d08726d3a4844af918;
    ThenTwice(0x3086d221a7d46bcde86c90, 0xe4437ed6010e88286f547f, x1, y1, 0xfd69a08f82013d6dcac67e696e7e6e9b508d9d70d7f8028826b7527d0af09bd0, x2, y2,
      0x10ee1659710acbbe70eb0447feee5924c2138186c5b4290d2831a333dc0731743, 0xfad9f2f0c162cb63730dcd35ca323de62b10b6ba53bd6072e1f5272c402f09f4,
      -0x4d7d8da69efbac367c8ff4f439c023613d57d4de8a874da7916630e3ca4dc187);
    var x3, y3 := 0x6cef742dba77862cdfbd9215c13b2a4b03e512679aa3ead0cfb9597a5a6fe354, 0x5322f56d060cc7b2440c24cb41272cebd4f392184f85ef5893a09a9190303e97;
    ThenPlus(0x610da4434fa8d79bd0d920, 0x1c886fdac021d1050dea8fe, x2, y2, OfGH, 0x0c3b6289e8dbee80be9c8bc1a24473f5f21334c56b023266925941799860b3c1, x3, y3,
      0x3044b8e1267027755a566199bc9f4baa44d11ba2c9891cccfff3fe23becc04c, 0x959f037f53d44f7305be39b8fa8c38e9d80a3468c4a1c1c40f63221882d175,
      -0x12948d3b3f0f860ba9d18835536b727dc749f473b430d18694e5abde6b9504f);
    var x4, y4 := 0x8d100db3c271a7552c3a919d07bc8f22d21ea200d1882c9462ff0f5a43fb25eb, 0xae7c1b22c7117e74af5272624176bb3ef9fcc896dee6e0b4f5ce48a174afb102;
    ThenTwice(0x610da4434fa8d79bd0d921, 0x1c886fdac021d1050dea8ff, x3, y3, 0x6fd7e01e37e352d4063727af5f01e595799ae3f525982e65adcb5a959005a445, x4, y4,
      -0x426c36e48ff53e956400c13d128d20b6767cbe530c2fd84094d5ae0eae7baad6, 0x30dcea646b6de707f3f43113d0d0aa18337ffac54b1d95debd931715cd9092da,
      -0xe093a125e30f46b18d926797aebf3d0a8102d9b6f50ef4862ec9988565bf774);
    var x5, y5 := 0x9b8843ea7978b15d8109731873a3a74b754bc8125ddae78549724071ec8a8ac0, 0xbee71a1561ae5e0f33070f8b521504a60af68fd6b471b4aec257c940bf89e6b0;
    ThenPlus(0xc21b48869f51af37a1b242, 0x3910dfb58043a20a1bd51fe, x4, y4, OfG, 0xec18a61115dc5b76997d08e7d351a4999ee6eb14ee5624841929b379e3aec5e8, x5, y5,
      -0x11d12254925abf919fd60c974bc42660312f2188f770a666a6e8cc2ae6521f72, 0xd9bd748f0f3c8b7180fb295a6cf1d61022d4f433029519046d10acbca6f7a593,
      -0xd5836a2703b0b25da53f48fe7227feb77d224cda3808531508fd63e1acd4966);
    var x6, y6 := 0x97b2095cb6a1c7b15eb193191a5429769c156688830e1015c5f3d73160450995, 0x1b889ed0245e578e9dce4a24efe3a28c3112981568b9ef0f0fe28ffb75408f0c;
    ThenTwice(0xc21b48869f51af37a1b243, 0x3910dfb58043a20a1bd51fe, x5, y5, 0xb11a495b3609d34c0637fe2c89ce8f2efcec495c86f2dc1779eb87ec9d26a79b, x6, y6,
      -0x135819e7cb89834938b5f947decf15294e2e7935743a45a791891ee20bad9f20, 0x7a855c231c45b57f1cf069f62ebe32347d748bcaebdd697cc3914c46da3f4e7c,
      0x2a783576ac4f463f64aa982317ed142085f45a2b491da328f4a6ffad0acf443);
    var x7, y7 := 0x336d03087f8a360547244fd43a4402b0ce3c1a2a4451bb73940d042b4550b8a8, 0x1b0e9d699e6dccd75cfe6b0a9f3f2606028b048b05bc3e61a357371618ec9727;
    ThenPlus(0x18436910d3ea35e6f436486, 0x7221bf6b0087441437aa3fc, x6, y6, OfGH, 0x0f68a9531f85c8ce708d75613e40aaf44178b1d7b7c9989a4fe98ac09400d922, x7, y7,
      -0x3c80f2aad63c4770b388ef17c48a1599356df1347eede43dda6a365ccd0d50, 0xed6ea1c13a24d770ae79b4c84915932671f6f9342250c1ca7bfd01046ba219,
      0x60909bba1582b0ff418a6207c43d90be805ac2f3ec3cf8c1db708d7c5022169);
    var x8, y8 := 0x1ec741c9e31a25d2c2f745c4c3f7ed7adbfea648bfb2ce7b830488f7aa096d2e, 0x1a99a451df8aa57cadfb9aef72784d5195e4ca76f9a8bff7dfea208a0025e9e1;
    ThenTwice(0x18436910d3ea35e6f436487, 0x7221bf6b0087441437aa3fd, x7, y7, 0xc0f2a410ffc5d6addac236ab0bcb740f0260e7a279397041b104ffb576ac52c8, x8, y8,
      0x9cb5d8b72a38909fb53eb4e9e8d0355ae7f78c3ad9ef6a3701b5c56189b08d0, 0x916cdc1418f21ce51c2a39c690ce2edb13a64344edc420c0faa3386ea85963de,
      0xf8fe2db314d2e926c78dafceb7ff9876e8c2c5bf5baa2eaf05b848c4a27a038);
  }

  lemma Reach21()
    requires Reached(0x3086d221a7d46bcde86c90e, 0xe4437ed6010e88286f547fa,
      0x1ec741c9e31a25d2c2f745c4c3f7ed7adbfea648bfb2ce7b830488f7aa096d2e, 0x1a99a451df8aa57cadfb9aef72784d5195e4ca76f9a8bff7dfea208a0025e9e1)
    ensures Reached(0x610da4434fa8d79bd0d921c8, 0x1c886fdac021d1050dea8ff52,
      0x35c491f93f4a8799be96d91e3f88b72385720779664dbb84b31450fff8fbcafa, 0xc29f059c03a864b439155e5ce8a7ac242840ab7f72d444d256c709c4ce0918cf)
  {
    var x0, y0 := 0x1ec741c9e31a25d2c2f745c4c3f7ed7adbfea648bfb2ce7b830488f7aa096d2e, 0x1a99a451df8aa57cadfb9aef72784d5195e4ca76f9a8bff7dfea208a0025e9e1;
    var x1, y1 := 0xdb4f7b090a48815edf632837c08412ccc22bf55fdbd8034896c42c02ed4cdc7b, 0x972b27fe02350e8718e72492d235ac2aa49b3743033f866c8224e236049cf026;
    ThenTwice(0x3086d221a7d46bcde86c90e, 0xe4437ed6010e88286f547fa, x0, y0, 0x51b4963113fe18798a9a7714323822f5a6f8bf5d71c7ada94f22d63a169589ab, x1, y1,
      0x5e0d5b9241c85324ba555bcb3ec60dcd4f8046fc877b4f68b5be16293d31056, 0x1a13c66e9bc875a5c224295cecf46188327cb548c09736d9fa26f2f592d1b23e,
      -0x3c2c188132246b0a216b38cb080f952e7159f515a08e89e4e962dff82773c46a);
    var x2, y2 := 0xb93209738435d5abc2297aae654676d0f7e2a63da7949be3310f1545269a9ab8, 0x478eefdedc057a1b298c15bb76a7dd1ba44933dee98bb6c7f0f131139b236d90;
    ThenPlus(0x610da4434fa8d79bd0d921c, 0x1c886fdac021d1050dea8ff4, x1, y1, OfH, 0xad28c18f91e0a256a428c714f1447066d39b7579aa02d8e407402ea39324a495, x2, y2,
      -0x14b8c15ec44e6d7ea3b5d01fe6defea88e91caba0266bb4b02ca87e051159d0f, 0x75201c191a60fc14d5cea7240ae5207544a9236382fe648a63fb76718bfd9e35,
      0x171354271f7c5a48180773ed815f8084fb4f110d350e60db87c0f01ea9f0a887);
    var x3, y3 := 0x9f80ff0c05670656c6aeb9bd754a2e6ffb7b8b160e019644d3b3e7ac6d695fb3, 0x920f35d8122b75636641321dbfbe61664b7246a6abfbcce3e5d742ec31ae455f;
    ThenTwice(0x610da4434fa8d79bd0d921c, 0x1c886fdac021d1050dea8ff5, x2, y2, 0x015a382392c54288bde390f6bb1b9d3cc230ebd9b517ca11db85dc4436ba7528, x3, y3,
      -0x1912a848f212d2f067c27b485cc728b50ae35e8fcd0a69a07721153ed3e787c40, 0x1d43bcc78525f9cd2e77ec6edf882751f04a118676b7ec599ad7d52a4c873,
      0x22beea5c173741323e1bd1afea752e17eb809038b73466fb96a841a24e7b77);
    var x4, y4 := 0x957b2e8cabdfffea0bf507c5a5511b5644f2adec49aa12e9750f97e4e0447e72, 0x075292540a0172ed2fac8be13226fdd7801b9d57cce628d969a16277f47f9ff5;
    ThenPlus(0xc21b48869f51af37a1b2438, 0x3910dfb58043a20a1bd51fea, x3, y3, OfG, 0x9bbdfe8c70d2b81ae629b7dccb2b3a2bc9ba332d58d82497988c0bb2322c52ec, x4, y4,
      -0x16f8d893d089d66a861aeacf9ec1140a058d8f4bb9514e599009f5b879fe0553, 0x5ebf9f3fe918bf0227f62aef7a725def495ebb00ea59afc4e85181d872ec859d,
      0x618f57f4db1053e7ca3c2e2620bef2f96032c60f1a3699301693044db4416e8);
    var x5, y5 := 0x589803c3d0254a43f0f78e18070f9679bc71ddee41d174a8336e02e236b5c1c1, 0xcbb7268717a97c9260850b844708d826fd88d54c10d9b5e57cad8e496e70f582;
    ThenTwice(0xc21b48869f51af37a1b2439, 0x3910dfb58043a20a1bd51fea, x4, y4, 0x57032455b206ac299befa9834414fd3b4c69366ea2283197ed36b72a23236d0d, x5, y5,
      -0x100df90e7de3310abe275daad2be967491fbe3b93c696959b61c66a195698cab6, 0x1d9322bc1e2aebede59ddbe888c1e03134d94ca20dd02f0ec424b3c247a4173c,
      0x14b1f2d816d00487fa5c730d2af084939e9cc5e6c5f614fa2ecb7d61ecdf8c5a);
    var x6, y6 := 0x499ac2fe28550b3bc3c234518f48a0903ee20d79c9963af35c07388d68e71381, 0x344028a230d3339a916549923596072243d8b300e2c38d14e0ecdbdc195a70d2;
    ThenTwice(0x18436910d3ea35e6f4364872, 0x7221bf6b0087441437aa3fd4, x5, y5, 0xcf133c57edcd5a1872542f16b159c59f72b4d7e9194c3effb7ea3b0ea41252a1, x6, y6,
      0xed9636f6b4481998aa92b7d75ea47969f56542373577153e90d637eefc7a5fcf, 0xa7801d0835d8b9daa939ac658a045236137eac6b00ae797f8246f7cd8878cc22,
      0xc1fe7b42288a8f7728d454418762e38635ebba0c079c1d8d189b4a2d2d677d4);
    var x7, y7 := 0x823e6ddec25cd6aa73a7096ec8df690e8009cc32431bdd6e8b137ae3b5095124, 0x7a5806f3f12bed979654078f7381bb561d5557d207baf9e459fa160c3cce9784;
    ThenPlus(0x3086d221a7d46bcde86c90e4, 0xe4437ed6010e88286f547fa8, x6, y6, OfH, 0x19f25a3697c3189393e2d467f9de682b1883611025d4ed5cdf1f14e83ffbfc59, x7, y7,
      0xba9b4cd144c1ad457409ada3fd6ef6a4722d1e6ff66f2385c1234982398fbfb, 0x2a13b0d58a57600d773c440501173531a42ffa6b3e46d7913d26f855507704f,
      -0x5bd9a5d158913a8fba1b742a76c256349dbc6caced5c2e1d688df15313f00cf);
    var x8, y8 := 0x35c491f93f4a8799be96d91e3f88b72385720779664dbb84b31450fff8fbcafa, 0xc29f059c03a864b439155e5ce8a7ac242840ab7f72d444d256c709c4ce0918cf;
    ThenTwice(0x3086d221a7d46bcde86c90e4, 0xe4437ed6010e88286f547fa9, x7, y7, 0x04bf5fb2356268b3b10b8d518158efeb7982d36d68baf2a20ab93533bf858a1c, x8, y8,
      -0xc240b96543372d749f4c85842346ce7e17b9139a3db54a503eae026e9bfc0eb0, 0x168a0d815c7bcb2b5b681eee51a0e3a44a7de9792a5bfe383cf02e32857d92,
      0x16b12f11b90c5920fca2f3c9f054a7f49648d17794dfca8d2221cb307a309cb);
  }

  lemma Reach22()
    requires Reached(0x610da4434fa8d79bd0d921c8, 0x1c886fdac021d1050dea8ff52,
      0x35c491f93f4a8799be96d91e3f88b72385720779664dbb84b31450fff8fbcafa, 0xc29f059c03a864b439155e5ce8a7ac242840ab7f72d444d256c709c4ce0918cf)
    ensures Reached(0xc21b48869f51af37a1b243924, 0x3910dfb58043a20a1bd51fea42,
      0xa8879cac66a20232198d95db70f402cb2b44de71c834edc3ac70c549b034425b, 0x3f6adac903b38d12623e31526a02e29cd546e3a6ee7f306ef2764e6811ab0fcc)
  {
    var x0, y0 := 0x35c491f93f4a8799be96d91e3f88b72385720779664dbb84b31450fff8fbcafa, 0xc29f059c03a864b439155e5ce8a7ac242840ab7f72d444d256c709c4ce0918cf;
    var x1, y1 := 0x6fc000fe55ba9d6c19f591705b3262baa7159a1654b3ed4be75d76384b2bdc9d, 0x9bb1ca70dd380e563a0b6cb93de6c8b3d0c617f3899526960ba2114d67e30ede;
    ThenPlus(0x610da4434fa8d79bd0d921c8, 0x1c886fdac021d1050dea8ff52, x0, y0, OfG, 0x9ba47a6231d3762c41df24cea7eec4ba4ab0e306eb1a43783ea697a475699a2f, x1, y1,
      0x2953f0383fc819446176f03fd711dd2f4b61b41af23c3dae07e224ac70373d37, 0x5ea095dff0a7a530bcb3e70d7ac848bbfffa8b5293183c0de816a2bb44028b2e,
      -0x23407d03444a2ee8bf2f3dacd8be72fc58ca2a1d4932163106301d0d79982e86);
    var x2, y2 := 0x9946417f6af5d4948841a2e0a96704f6422eeed6a50b94ad8c6df40c1d0ae838, 0x70e0be86de0b7cc50e825600e4af80735669778a6facdfcc91309aabc8fc6cfa;
    ThenTwice(0x610da4434fa8d79bd0d921c9, 0x1c886fdac021d1050dea8ff52, x1, y1, 0x8a04968e57a999cb5982a6b33922ade2410580a4576e4fdc128cb13e5cdde3c9, x2, y2,
      0x158910575b9519b60d6691d6daec26128bf65e696443a109ec96a480365ef30f, 0x4a68f2668380b4fc2941492f7935d0a88ca3b9278e51d3431d7e8a54713c70d1,
      -0x16631d4a57f1cd31cd36512ab351542f87d3db7ef252ee72e3ef57413c246565);
    var x3, y3 := 0x2ea634df4fcb8d56e74192879ebbae3ce53fc27017791c9beb475df4717596e3, 0x1a5e4dbff5f111d590d494e3a98de6cf1e3d043cb3c4e090470244e167c1b4eb;
    ThenTwice(0xc21b48869f51af37a1b24392, 0x3910dfb58043a20a1bd51fea4, x2, y2, 0xa80dbe3c0a7c40b217cfeabe4bd2a0aeb38c578a624caa1dd8a849f5bca957cb, x3, y3,
      -0x7f1c100fa6549b6ad17fcb992c5f7cfa2e2544b4f9c0fb8dd7fc70b485393afc, 0x6e520a6bad39532dac0bef680b7d7f9929a397beb9efa8ecbc29a299e390bf3a,
      0x45fec1a58134ea8c5d8a3f5d90d3ed551426244162593c3f92c2417980b9ee1e);
    var x4, y4 := 0x47ee4cb2623fee6d27fefb8ddebb607eae8fdce78e585e1f694c5ff8d1548677, 0x446a6d6912dd78491bf492b6be8d8ad441894c87f5abbd617b25661f34d5839c;
    ThenTwice(0x18436910d3ea35e6f43648724, 0x7221bf6b0087441437aa3fd48, x3, y3, 0x9ef0993e0e71c9197517d779fe6061feb75d608a77742fb9eccfe13602ac5aa7, x4, y4,
      0x73d83a1a57d3a314a1c416aea2b7a0c2bf3b9491f3155463cd7cd9c72acd271, 0x62addf4849eac5e37e93758bc11915d9a9da9111b522d399533e9ddbf3b9b58c,
      -0xfb2416cd2653a28f48445e6a68f4b4af5dcc7339366b0d480bf3d553611a35d);
    var x5, y5 := 0x2c8690668cd4416c2cf611c14d8944d9be4aef053bfb02b80ceaa9b7a0a49eaa, 0x8cdafa468d9a7950e5e43e0f638bbf5bf0a2c29dffd317957808851a59781f03;
    ThenPlus(0x3086d221a7d46bcde86c90e48, 0xe4437ed6010e88286f547fa90, x4, y4, OfG, 0xe7f9de7ef6ec789a58664026cea38b52901d0dbcf9b53ae95d2a1e391a12af08, x5, y5,
      0x2d2365fbdfa60efe349120d09cb16bb28f1f038932863369d97fc6bb2da710d4, 0xd234e36bb5fb8ce347e63a26679c23ea47b0712f5e5333b292b77078a375b029,
      0x18d55aa0201e2eb92e9edae8c04c5ee4e1c49205aa116f7b89d8e7dbcb3ede87);
    var x6, y6 := 0x195f76984cb55fa9de3c2ae1d58df955aee79be6524428fbf6825232824d857e, 0xdccb7e123fd18651b64077f5eebb6cb5e4ea619d4643661c2b7eae7278d9a856;
    ThenTwice(0x3086d221a7d46bcde86c90e49, 0xe4437ed6010e88286f547fa90, x5, y5, 0xa98ee95679313b06e9bcaa9ac84ff3c50a7b94510fbef6e6a8f88c762a045ba6, x6, y6,
      0xa35ac90859a50975cedae135bd8673b2c2e17cc9e74e9524dff2ce3421500e48, 0x704dffdbdc9ff85de02c37f048b62c991763d49e28d7935603f897a3efd571ce,
      0xcaf812e876c81e919bccba71f5e9e3145908036af5a4f917febb91cbc8c3d01);
    var x7, y7 := 0x50b65cb2d29ea6fd486d26e3d223ac5de99311094b599377afd625551ec2d628, 0x6fef18ec41638b4b15824d24bbf4d18b4433084a0b690f9a73f3d88bfcbed6b7;
    ThenPlus(0x610da4434fa8d79bd0d921c92, 0x1c886fdac021d1050dea8ff520, x6, y6, OfH, 0xba39579f5ac61bf2a26b529502793dea197de934cf9a6208ce9cab9337a62b09, x7, y7,
      0x76cad4d529b30f5fa555568380a90542833960a94168a90764793c5834a433ac, 0x8777602bb2dbffb98f55ce8bd9f8ed0bdb96fbe730c414a77c3dfd78441b7b20,
      -0x284188797bfe9ce4d8f8f962d890ae3e4b8a235f03d15f876b9f8e2d8c5118a9);
    var x8, y8 := 0xa8879cac66a20232198d95db70f402cb2b44de71c834edc3ac70c549b034425b, 0x3f6adac903b38d12623e31526a02e29cd546e3a6ee7f306ef2764e6811ab0fcc;
    ThenTwice(0x610da4434fa8d79bd0d921c92, 0x1c886fdac021d1050dea8ff521, x7, y7, 0x7d2d3199ff03e3db2c80a4b4500153fdb72733ecd44756d2ae655db21390e645, x8, y8,
      0x211f903e92db363979b3c89d26546826a90b662300448e88718034f0edf186fa, 0x3d352a6adcc9c424726c491432f11259d356c2e139210d30bda7510943d19d72,
      -0x2af0ad08fced6df502386c3dac284606f850b796093bff26d1e16284cb62075e);
  }

  lemma Reach23()
    requires Reached(0xc21b48869f51af37a1b243924, 0x3910dfb58043a20a1bd51fea42,
      0xa8879cac66a20232198d95db70f402cb2b44de71c834edc3ac70c549b034425b, 0x3f6adac903b38d12623e31526a02e29cd546e3a6ee7f306ef2764e6811ab0fcc)
    ensures Reached(0x18436910d3ea35e6f4364872494, 0x7221bf6b0087441437aa3fd4855,
      0xe607fbe976190ee03f287a432634e96befd2e448e4c5a86b3e112a9754087697, 0xcbd23d2b510b6e9b17db52ec727ead5a930b1bcca3deeda3b1fadf6bb9df6d40)
  {
    var x0, y0 := 0xa8879cac66a20232198d95db70f402cb2b44de71c834edc3ac70c549b034425b, 0x3f6adac903b38d12623e31526a02e29cd546e3a6ee7f306ef2764e6811ab0fcc;
    var x1, y1 := 0x31e11fcf9429ae164bd44ce6da985916662c60a7282f5f7dc4e7270df07e4002, 0x26958bdb39269658e34f5f2afbc442a62cef878fc23244153e929a59bf2d3124;
    ThenTwice(0xc21b48869f51af37a1b243924, 0x3910dfb58043a20a1bd51fea42, x0, y0, 0x1d38f19c487c9bcdfa98f81330c34a7f6095617636ff6e07ca7ddff450c6d44f, x1, y1,
      -0x13e5c6464cc67168fdbea5fae9b141292ff521b614b1f24af4ac85f9a5e84454d, 0x355f36800d391b3dea254497a47f0703c9b7b53ccdef6203efe32863a20a7a7,
      0xd8b408b7ebe3885f01d6160604d539486bc31aa582e741bc15d10491f428729);
    var x2, y2 := 0xe57e52622ad01085a7d6c2e25d43353eae1fe6bc381c925be2b21287dce1dd0b, 0xde47e9d5a640f9bad6a346bf3af4cdf64efab79d016653a66c40f4758ce600ca;
    ThenPlus(0x18436910d3ea35e6f436487248, 0x7221bf6b0087441437aa3fd484, x1, y1, OfGH, 0x33d84a595c009927dd256e0a4f0c38fc68e9e37ea91c1450ffb44d5a08eac658, x2, y2,
      0x13d311edd9c775eb14d6db433894e0e4ea691685024324b79fc7d633171861fe, 0xa7fe45d270b4669c76810a8371c4fd609fa0f896f45f567ff0340969a2a7eed,
      -0x246011e0028420234f0f9c386604e7074d4d6f459230fa81a4e6da0450db0dda);
    var x3, y3 := 0xd9449f3f64ba3ea859cf83bc2fe32d14ee3e873272b7fd47d7b3f8b2235b1f4b, 0x821bbfdac7c4cdc2026e84812e6f0581eb0ec3c5c5ba8dec2599ae04a7a1f2a0;
    ThenTwice(0x18436910d3ea35e6f436487249, 0x7221bf6b0087441437aa3fd485, x2, y2, 0xa5223db8ea7820ac280323e2628bfa7e231fde12b9a042d87c82d7cd0448163d, x3, y3,
      -0x14a6d8f73922c4f2a912036b6cd55ad7c96a4f42125c185cae8010ad128d47289, 0x6a852824d23ec755bc4f83bbbd7ed4cb9536b00c42371af354fe1c45a079cf58,
      0x7e2d311c8a4e3b445ce45e18304ac8628c8d3db029f525061532aecfdeace8a);
    var x4, y4 := 0x0ab06dbc9d413f8e22d5a0d841567e467474ad18a2166e58b8788373a9951e3f, 0x30e30701c0731eef6ac90415cd58fd4c03fb6fb32c9316f4f1a503d49e4a790a;
    ThenTwice(0x3086d221a7d46bcde86c90e492, 0xe4437ed6010e88286f547fa90a, x3, y3, 0x757ac54d25abcfc9d11e1bb21293eb05be79130819c01610886512af0bbfa343, x4, y4,
      -0x1b1c610bd692019803fda0f7efa23a8ec9190fa03d7a9620db9aeaabccc3d10c5, 0x35e973392a06c6eaa2338ea2e429b5094c6da761bf88c441701586c59f5a738c,
      0x5ecccc76a88ff3e851a4f0c6ab921d7474713b8ee913110a7dcd3846d5d288a6);
    var x5, y5 := 0x6be79777f105419d66f724e0b1dc66d70ea36c383ad3c784f205e827318ab1ab, 0x18387d40fa29596081b10304904b63af7ec8a314753fd27b2021db477cb36c8f;
    ThenPlus(0x610da4434fa8d79bd0d921c924, 0x1c886fdac021d1050dea8ff5214, x4, y4, OfGH, 0x34cd9a3c9c4c2b1c3b85cd7a3f99a8e14c6e8f935681ebec981fe65521474a65, x5, y5,
      0x1c463d2ebe2259f5d1d19cbf6cd4054d3d176b536e1db99bb4fa621aef22f743, 0xae42bc9017e3de5ca64c7d1aa209781b3538cc6883694659adb9c1d68fff4f1,
      -0x140d4838ab68e6d9d28be588063748b03879ebc0149502a21f4cd4f712b965db);
    var x6, y6 := 0x8c43fbf99fa31d4fd311509bf91b26e24a3e3f8f98e4bb5b64f5b3578c8aed2d, 0xd82c7b56e48b5b0b65fb70f934932134976de895591d0447a65ae25b5c424992;
    ThenTwice(0x610da4434fa8d79bd0d921c925, 0x1c886fdac021d1050dea8ff5215, x5, y5, 0x19bcd24697ff9ac287ddb43610387d441ffadf3844f8a15bdd42a806ee0549ad, x6, y6,
      -0x83937b2a35389cdabd210bc107b1a8eb95605282447a337390a6ebfe216a62ab, 0x2966c574e17107c20302be470daf12a927ef3a00c9d63565b753e4e991a607a,
      -0x340e43f303651f5c7cb59a4c00a422f2b394cc0893f001402bcaf17f34f3af5);
    var x7, y7 := 0xb71c45bec5e607a61bf3ce791661f2bc216031e5c5ea5e3e9f60f0dfc13bfe57, 0x1f38ccf141487b89072e02618ab4404ab381c6a6907b02a5cefca47d0515ce3f;
    ThenTwice(0xc21b48869f51af37a1b243924a, 0x3910dfb58043a20a1bd51fea42a, x6, y6, 0x34d571fe26731f9faab8d5a040e41452eeaf263425a62817b67a802d71b0768b, x7, y7,
      -0x8d54bc4fa04e38979c3e3538b7d949a43c49fb92541b5bbfc1ee227ef4787b01, 0xae76846234d1aad713145135e72577f69f0132a5dc8082e89231fe1c8b1bbb8,
      -0x8d7a8056e67042d51829deb973ee5b44c1e3099d8ed79003a277c5d30c04191);
    var x8, y8 := 0xe607fbe976190ee03f287a432634e96befd2e448e4c5a86b3e112a9754087697, 0xcbd23d2b510b6e9b17db52ec727ead5a930b1bcca3deeda3b1fadf6bb9df6d40;
    ThenPlus(0x18436910d3ea35e6f4364872494, 0x7221bf6b0087441437aa3fd4854, x7, y7, OfH, 0x8797a9d147e02ca2cd083ec4b8141751ed1af7da9091a7a85afbf5d020b2033f, x8, y8,
      0x2f28edf5069f123a7d5325717b2521e0fc9785eb069e4a35a0a1eb428f31dec, 0x47d14ef47f573584c7728385a2f64fccf0e6f32ed66c9134d50c01c1e9282db8,
      -0x18da1938ecf734080b8f071022dc7bde3de979ebb7206f140c46f038164dc5f1);
  }

  lemma Reach24()
    requires Reached(0x18436910d3ea35e6f4364872494, 0x7221bf6b0087441437aa3fd4855,
      0xe607fbe976190ee03f287a432634e96befd2e448e4c5a86b3e112a9754087697, 0xcbd23d2b510b6e9b17db52ec727ead5a930b1bcca3deeda3b1fadf6bb9df6d40)
    ensures Reached(0x18436910d3ea35e6f43648724942, 0x7221bf6b0087441437aa3fd4855f,
      0x390076bdc9c868316471a6bee1a5c735bd739a2748920f897299b4ad2ae3ab6d, 0xe13e7a6732ef1f85ea6acf81b818c713c73f8cbe1f8e28d9b67ecdace0c09380)
  {
    var x0, y0 := 0xe607fbe976190ee03f287a432634e96befd2e448e4c5a86b3e112a9754087697, 0xcbd23d2b510b6e9b17db52ec727ead5a930b1bcca3deeda3b1fadf6bb9df6d40;
    var x1, y1 := 0xd29f00ba456841ff3f670e98db3ebdcb56c30a40f85d86c424884d638955313e, 0x90663ec7e92efac6551bfbd57fd401b69767ca399380c2d5f94dfbba4c670146;
    ThenTwice(0x18436910d3ea35e6f4364872494, 0x7221bf6b0087441437aa3fd4855, x0, y0, 0xa5000185fc0a7d03b36e7e3b37d014a8531c1c0822527be71c6405b01a0234e5, x1, y1,
      -0x1655a056ee7da1da1c23af2183bdfdddf90a35fddb39b06158c1d941be6053cbd, 0x6a5901f6b6e7d73eb5510284ee560506a5a386b81cad834692ce2c8b152c8423,
      0xc82aa02fc03c598cfc0b182dc42e8d57bb683557ad723e22d05629c8a02ea99);
    var x2, y2 := 0x1beaf760eaa5c05c98787106ddca1094c5482d908af1628f3595b6f71a40d7ee, 0x92a7d898c2cd34336ede4b62bc0d3f116ad03f8ca4687ea2365c7c49e323201f;
    ThenPlus(0x3086d221a7d46bcde86c90e4928, 0xe4437ed6010e88286f547fa90aa, x1, y1, OfH, 0xe4fbf4d5572f6714e685be6db70173cb17a05e071b4cfe01e6acb7865f1a3869, x2, y2,
      -0x13a13bee1f59cd212079f61edb026e460465d21dedbcf4080a8955aadc143c64, 0xccd1c41607ccc68decace6849e8cda4711dea2a4f131b114863eeba30332b706,
      0xa36c29949a5f2dd04e23b9d552b4eae453c905f41ea79075d27d53fbb67ac485);
    var x3, y3 := 0x6627adf1d6a6359e815a325efc5b6ebe833132ed1585b16306c833b3cfb92dd2, 0x8c9ef14bb4f696644b52740947078558e863c8fb6f5941111b071ccec8562d45;
    ThenTwice(0x3086d221a7d46bcde86c90e4928, 0xe4437ed6010e88286f547fa90ab, x2, y2, 0x2c38cfb7bcbca90f2f8703baa519db99fa916a6a2d2fa144dcc7ff2512b28946, x3, y3,
      0x2988925a6120e244c6ea0dfa427531c6489bf100ad70fb587d520a083ef1c558, 0x7a39402b1ce13bfa9411a432139741357ccc6821aa827c08a60f96184952a6a,
      -0xcd2e8e53804b05d09302d63d1fcd72dc876795e08a75d2e8ac207fa1b65b304);
    var x4, y4 := 0x0bef52a89d2243cd8615617ce27b2789d6108eef65a52b294e74e76393978824, 0x76e5dc2ff57a5b507cc4de0d3790b10e82d143f3180f5c23f98d07f3821420af;
    ThenPlus(0x610da4434fa8d79bd0d921c9250, 0x1c886fdac021d1050dea8ff52156, x3, y3, OfH, 0xabdd6ea0a8fb497b3e00c18299e1b199b8b1c22598eda05a36c17cd7e8f621a5, x4, y4,
      0x3a15d0c3c4ef9ad98a5d16bb01e51cbe8315c3dff32ce47de52e8a45489066a5, 0x73619152d2f1ec13206a9a43aa736a9641113dd18115ce0912b2945db8a31ce8,
      0x3c91ae9d8da1d8f80d1e7376b5fbe40328f78cd600730885bf4f239bf8be036e);
    var x5, y5 := 0xc5a0c703a3a28772709be3dcc7d5e6faeaa9d37d86b05a86af2f32cd3c50276b, 0x1b5ea5417bda653a91806ff0486d7c1f2a0ef36847e55814c3ab716b04482271;
    ThenTwice(0x610da4434fa8d79bd0d921c9250, 0x1c886fdac021d1050dea8ff52157, x4, y4, 0x3b50a7ad9a79c109caa4a521868bc5d3933836b11a3cca7fb96ce92d3bbd6c75, x5, y5,
      0x356d8c67137b4096a1003448ae8a92a2f93ace26de13cf2fe560af567279a41a, 0xdbe46b33f88a0582926eecb2f90dba1efa5183acd2853d5983af147d878371a,
      -0x2b0666e606d1ab51da46fb363e3809bcdcdd75bbeb7444c4133168b9fcfe12dd);
    var x6, y6 := 0x99318a098055df249fe8538460187b9ede4d2033220ef79241893f06f20b8bc2, 0x7653b7abe3502de25a8c2053ed765c8580a230f547b6e50f7af32caabadab7c4;
    ThenPlus(0xc21b48869f51af37a1b243924a0, 0x3910dfb58043a20a1bd51fea42ae, x5, y5, OfGH, 0xe6502f0f16f1d24f8473db8cda72e41d0f6afb75e2734606b9d2af6153046697, x6, y6,
      -0x2cdb381cc430e2964c0bbb6536983b4e1558a9049ac2d3c1c32c8d7f8a159732, 0xcf342dac8f4f685ad1514371b202464b401297782016566e9b2570db2b03600c,
      0x27f9dbb6d493eec49a10fcf89d3e58cd2e25105612a857ff0635dabdc9dc1aa6);
    var x7, y7 := 0xba70199cc8524a536dd6b22471b40daa88e716892ff6bdc4d623754b44085585, 0x0b616fefbac6f2c10c6210db020ebcfa2e6895b1ec762538a5107bf04822ed3d;
    ThenTwice(0xc21b48869f51af37a1b243924a1, 0x3910dfb58043a20a1bd51fea42af, x6, y6, 0xbba74c4a4f664f97346c6600dfc08e323e97f2bb9fb203322bfdcdff6e1ffa46, x7, y7,
      -0x658bcbab5133d94eb146d990e39306eff61eb30c8e54e6e3837d57cc72c76ce4, 0x898dd6c92faf44797ce4daffdeda1352391becbee7ee478cee60b6339dda65d5,
      -0x185e6c9877ae297873a7d5d2fa751964b2011ab44392d25208e8803078ebe31d);
    var x8, y8 := 0x390076bdc9c868316471a6bee1a5c735bd739a2748920f897299b4ad2ae3ab6d, 0xe13e7a6732ef1f85ea6acf81b818c713c73f8cbe1f8e28d9b67ecdace0c09380;
    ThenPlus(0x18436910d3ea35e6f43648724942, 0x7221bf6b0087441437aa3fd4855e, x7, y7, OfH, 0xc56a5edec4eb9c0d82be7266fb004a6ee24977eb248b88f6e205ba755d8da7dc, x8, y8,
      0x1b9b4e7be4e9221e59fd6cd51f1d97624074faeafabd29964a9a29cf2a97972, 0x983ce2358eb60bc12d1f95086a0a7a9e36375ca486311592553882eb379dcd1d,
      0x63d0b086aa63380749889c1e9da2c0b965789b6640b7c407b4d2e061b1b6f28d);
  }

  lemma Reach25()
    requires Reached(0x18436910d3ea35e6f43648724942, 0x7221bf6b0087441437aa3fd4855f,
      0x390076bdc9c868316471a6bee1a5c735bd739a2748920f897299b4ad2ae3ab6d, 0xe13e7a6732ef1f85ea6acf81b818c713c73f8cbe1f8e28d9b67ecdace0c09380)
    ensures Reached(0x18436910d3ea35e6f436487249427, 0x7221bf6b0087441437aa3fd4855ff,
      0xed9e26352430d4d0bf320d5dce3faf649e201a90e0eb36127b0dbd7801819515, 0x12f50df5d460153294548497e92ce798f94fda010b84830c832e8dea94db5934)
  {
    var x0, y0 := 0x390076bdc9c868316471a6bee1a5c735bd739a2748920f897299b4ad2ae3ab6d, 0xe13e7a6732ef1f85ea6acf81b818c713c73f8cbe1f8e28d9b67ecdace0c09380;
    var x1, y1 := 0x1962a8373712d3046890fbb2d3d2fd9c056f8a046ce5f7e2f3bffb5f75258668, 0x475885bfa2eb7eebb46d1a8b53b2061ad89ff2131258c3772ff5ac75f95da19e;
    ThenTwice(0x18436910d3ea35e6f43648724942, 0x7221bf6b0087441437aa3fd4855f, x0, y0, 0xe4aea4c8a568860a0d8e79374349f09ff68a33c6ee43e25c230bc247779adf56, x1, y1,
      0x16c56fe4d27bcdcc7fec51ee98e54a3aba5ea20fb774f209f7ae8febb6db69d4b, 0xcc478ca9d174ba08e7be6e2114ba9449d8d15489b41ac3389af5a88375bfb3fe,
      0x1c3e1d8c1a269e2ce1806880e152fe87a66d124657b0b55ceea777cc75898f70);
    var x2, y2 := 0x5050717e7165c1a249c68d320386c9eef7989a477d329b1d347e4511977b00bf, 0xa49edc4af0c80100b0a168eb62cc0124f3d5660ae41f51e00f904b35cd6d66f7;
    ThenPlus(0x3086d221a7d46bcde86c90e49284, 0xe4437ed6010e88286f547fa90abe, x1, y1, OfH, 0x5eebb03b17cf14f157f9f7225db087a87d00f149ef1a13c3ec96a3193b15c69a, x2, y2,
      0x3c8b971a1d11f27aff48dc8efdc125b219314acca71c398f9c469d69ac17835b, 0x2331ee686b4b17f2682973e574be9a4e5cee27b7e326a5e552556a5798bb16ee,
      -0x145de2001417251bfc130ba34a3d4bfd35679588765880f176283909edc16205);
    var x3, y3 := 0xa8ad930f98e05c148c807ee3d4eef70384e2ecafb1b290c15c4b796bc73902c2, 0x0b304e170f37bfd105cf144f587ca708796ab8663ae887f9387a1f7b3c46ddcf;
    ThenTwice(0x3086d221a7d46bcde86c90e49284, 0xe4437ed6010e88286f547fa90abf, x2, y2, 0x2035b1911b2225b0b6c8fb17c04fb11e87a489c83aa6575c1376a1c099e4e53c, x3, y3,
      -0x222a5b6a39f1b77ce25a91636d7ad7d72ecf6e2acfe9f0ace486d428992b7435, 0x40d77a74807bf54c08b357031d85748aa108e504ed150451a87389e2fb83730,
      -0xb1e2cc4924f7b1e9ca359ecfa5f1579f20e83cefbaf643440096424752efaa6);
    var x4, y4 := 0x23053cc777ca08ebbd930f9c42bec400d29a4856acbe8991ef3ce73bc706112a, 0x27e7778ef0a20c6f129700fdce13828aed18156d84afe60331db7591ecad961c;
    ThenPlus(0x610da4434fa8d79bd0d921c92508, 0x1c886fdac021d1050dea8ff52157e, x3, y3, OfGH, 0xdc7c87fabf1354bf3ef3f331f2e86780215976067d0c7ed2272958f653637143, x4, y4,
      -0x12022e018f23a20d1f181486e8628fa4b1272d7ab91b0b5d9fec4adb81d90b17, 0xbde6464afb8cbf82f1395a28c139dc11c17ef2184d6e8757cae7a7976a4516a3,
      0x731daeae77063247bd104ba48fa1d9dc8188931ee3dff1b29b6688ebb8b496b3);
    var x5, y5 := 0x577b143a668766940363c5b05225c8a492fffa5477bc80779aa48ca97d84b737, 0x6ad297a3d9bba6c88a700a3deb3de99d14a7af71b463a615f5ea2e9c75a38414;
    ThenTwice(0x610da4434fa8d79bd0d921c92509, 0x1c886fdac021d1050dea8ff52157f, x4, y4, 0x2b7a8400ab5bd0dfde7286d5cb69cce61e42a270dad67d558733349b70586b69, x5, y5,
      -0xd1583f09230b86bd3a0c81a9c76fff5881c581da8d0a8949d0a6385835648c, 0x76262fa4e44dc656c3525d3ade9983e9677a6580621a3c71e74226d8e0ec15a,
      -0x8e8e665e1145fae84d32af46140993d4f2f3005cecc4472d59ba030fc15f98b);
    var x6, y6 := 0x03581ea070f0d3cfb37ecaa1c514e4197bc059972aa5ed6acfa0c20e0df6353b, 0x92f02e8e8f8250214e160bc02e4aeccc92013f12409dadd20f3f5e86f1407806;
    ThenPlus(0xc21b48869f51af37a1b243924a12, 0x3910dfb58043a20a1bd51fea42afe, x5, y5, OfGH, 0x5b0a90734bcbe9b4dc75fe49f437e2abda788578d8955042a3d3b4c2b1b7a5b3, x6, y6,
      0x1570b4e7eb4ef46a4105d9adacdbaaf7429c8541068402c93fd2183734f66b33, 0x206083219266cd476d6da9dfb4d9f7ea570305ed158dbe4ff65ac0a4f68e74a9,
      0x1debe624e1144ed7a7df5e1ad6a7e8463b46901849ffe2b714dc812f610db606);
    var x7, y7 := 0x48d5796c5e144c1df95aacf5223d8400cfdbc25132931032f2017f86706e07f9, 0xe3c202a9fda16e0ccba7fd96e8e29c6a502cc5cbd56e4f1d45fae7fc7771a7a8;
    ThenTwice(0xc21b48869f51af37a1b243924a13, 0x3910dfb58043a20a1bd51fea42aff, x6, y6, 0xee37fb2db29a2d4d93a9ae6542172320b2f89b690044c01495ea7309a84de7a1, x7, y7,
      0x111554cf60703039131605cd997ae99ac2c3da8ac01b79ea120e28c4e9e4d0e0f, 0xddac2346dc2c0ede5189c3dc46b9468af22221d212a7caba61187cf3e43eddce,
      -0x40a9bc8667d0d6a89542d62514741a2f2e54dacd3bbca261b6048e579a31b094);
    var x8, y8 := 0xed9e26352430d4d0bf320d5dce3faf649e201a90e0eb36127b0dbd7801819515, 0x12f50df5d460153294548497e92ce798f94fda010b84830c832e8dea94db5934;
    ThenPlus(0x18436910d3ea35e6f436487249426, 0x7221bf6b0087441437aa3fd4855fe, x7, y7, OfGH, 0x5cde7c33c6b24e002960442ca28785263138c6ba2a537a6f3b03508b51495348, x8, y8,
      0x1b2f25538dd6c797393fc492a18cc8e296dac69aa8813a5c42ee56d58f45ee92, 0x21b0aaa0dcdef844e6d87cf4e0a03e84f6510db5688588bb5193aa2babc48e1e,
      -0x3bc7541084dfb534c021e399f42f92d6f5bdb2e77b1147e319d9e457f4eb6c04);
  }

  lemma Reach26()
    requires Reached(0x18436910d3ea35e6f436487249427, 0x7221bf6b0087441437aa3fd4855ff,
      0xed9e26352430d4d0bf320d5dce3faf649e201a90e0eb36127b0dbd7801819515, 0x12f50df5d460153294548497e92ce798f94fda010b84830c832e8dea94db5934)
    ensures Reached(0x3086d221a7d46bcde86c90e49284ea, 0xe4437ed6010e88286f547fa90abfe4,
      0x2f0a683b6a5038e653ade3c9d8697e23fc12b74f29d56cd578196dca1a034b65, 0x11ea939f8a5f1b555d02d731234b36424b42101edc10d853c72a37f1008be8b2)
  {
    var x0, y0 := 0xed9e26352430d4d0bf320d5dce3faf649e201a90e0eb36127b0dbd7801819515, 0x12f50df5d460153294548497e92ce798f94fda010b84830c832e8dea94db5934;
    var x1, y1 := 0x38ee22af11d7a4fd110f3978882ab24e8ca36e537cff29b716272a5105eb8990, 0x121c24d9ffbbd1f9c4784cbe10eff591c36275613b8cfffe6a0c08fc6e3938ca;
    ThenTwice(0x18436910d3ea35e6f436487249427, 0x7221bf6b0087441437aa3fd4855ff, x0, y0, 0xcaa117c47af47ee19a4ed95790479e6c0662621485fde48eb04a386945182aa2, x1, y1,
      -0x277a8078c189aa2269b90ac2c3b3dcb5cd6b8886387b059fcf8b9c6d21079c295, 0xa0629ee0f96164a80f854bcb27a332458813c854cadb7d895bec3ad082ee4d56,
      0x8f0496407fa81b1f48fd3ea1d763e7578edac13dae75458ce56c0d9198d47194);
    var x2, y2 := 0x6a253eb3511da35238136c369ea12fad34091d40ee2b50d1957ccd24081a6aa7, 0xb8740860d3f3d3f516b70bd4d4c5f43ab574d54d612209d0b2dfb9d7b3b3efb2;
    ThenTwice(0x3086d221a7d46bcde86c90e49284e, 0xe4437ed6010e88286f547fa90abfe, x1, y1, 0xbdd6455033719267f24c054f78599c90d7c4b3e8d225a166850ff62ede19ec2e, x2, y2,
      -0xb1f46cd4944c26d6225b66d78cb7fe32c7075230be1ea849111699644b00a18, 0x8cc615b060d008e9abcb533ca0fa9b5915d3ccadd6d3fc9c3b19717a5862cd13,
      -0x247ee113d3ed47b6bc9f6c525ecf09ae0cf4fe79d2caffbafdaf2efb6f72bdc2);
    var x3, y3 := 0xea6f97a927538912e806819453d1ced4faeb7e08b062037222be81357ab79195, 0xf8e7a2b88fd95cb02b063e3d619f8ee6a778afec5415aa38a9b09f14b174c7c8;
    ThenPlus(0x610da4434fa8d79bd0d921c92509c, 0x1c886fdac021d1050dea8ff52157fc, x2, y2, OfG, 0xe2c276362a9dc50ae7fa3518b98cfc9ba1123ff086ccd39bf2b6fc48866ea3d7, x3, y3,
      0xdd10e65d88d9684073d12aa2816ffa5910335254b9b4d38beb3d315c129cc6f, 0xc8dbec6f03ed21c5596ab14f82bfc4fd294df0631ee58fafb5a41ee5b1bc70d3,
      -0x71a3161ddb734133d0258e7fecc76a06ba92f9ab33493513656acf5105c25f64);
    var x4, y4 := 0x15957729397800554caf5374e99cddb622ac6f6ac509f07f53d7de60102e1c31, 0xaeb5098f360cd7239eaaccb1f325287a23138488b56b351db607a444c625061f;
    ThenTwice(0x610da4434fa8d79bd0d921c92509d, 0x1c886fdac021d1050dea8ff52157fc, x3, y3, 0x759d11baed17c656bdfa00095c3db85caf2a3c040e9ed723a88c09956595b604, x4, y4,
      -0x19f5b6c5dc42c325a33f8fa7e65ddd8a655c5126c0939f422c6919887c0bad905, 0x3608f2939d38e66f1a844b65b6162c5355721e398bcd145eaf7149f7c637f45b,
      0x61ca495e4df0057818ee6debc97763b3ef4051f2418b215537098be97dd9f3a7);
    var x5, y5 := 0x1e550432f0d0daf2cb25b60eb67d92fb818d00c19e469c7a37a1ce57a3824b73, 0x0b1e650b0b894dee6516e658d22262df4970581760b470aaf9c96f008285d64a;
    ThenPlus(0xc21b48869f51af37a1b243924a13a, 0x3910dfb58043a20a1bd51fea42aff8, x4, y4, OfH, 0x370acb75859498d8e171d067502b4a380001e1f9d900cca8d35a3ea38cf57466, x5, y5,
      0x23ed13dcd25e7d660be3fc456c982e277bcbafd50c298fbb25e2716afee7553c, 0xbd5a3e10647e1162bbfed4baf5866727a7cc417f298b8ab353300077d492bdb,
      -0x1e185bc81b802815c3959b531ade42499f6974ed69a7484fa8f7bdd8da34c5b);
    var x6, y6 := 0x009afb96ab728f5a548d62f921ec9c2c8678438cc9e5e863a15d9680bd3736dd, 0xeae0cef2483b56b689a2cf03dcb4bfe0155df0962fcbc64306ef8aa748430a0a;
    ThenTwice(0xc21b48869f51af37a1b243924a13a, 0x3910dfb58043a20a1bd51fea42aff9, x5, y5, 0xd6f75eb848b44f1ccaeb247f4cc9f288a62de4bfa8a58e26bd106a0164edf720, x6, y6,
      0x7e4322897cc710896e5d9a6b5c7197d1a45c3a02fa8633fb280f7746dca508b, 0xb482816404359a41cec17cad2dee2a3e3cf274b4b75c6c903f92cd1a4b133d53,
      0x18f63cb0a6149560a0baa26b3fceb843e22baf4e7a514588d6cc7e91fbc8e354);
    var x7, y7 := 0x6de96ad6e3530a2777fc9985695b52f34211774cc4310eee8374416e99f51518, 0xb63e378ab302f5f78d3f35cfd4f7dcf1894d6c33d522eec9bf6acb11236f0bc6;
    ThenPlus(0x18436910d3ea35e6f4364872494274, 0x7221bf6b0087441437aa3fd4855ff2, x6, y6, OfG, 0x4613287ecfec9eb936e21294b000d791c7685eeb44cd9e807f257ccef92be16e, x7, y7,
      0x2128c005ff355fcacbac1f6ee68fd4618b37007ebeeaf83cfaaafad1025a2314, 0x132e7b9462f023b820e86a954d5347ff611ad905d3a5ee9c83698dc7339a82f9,
      -0x1deba08837cfc59cc2bfa972fdc714ce5c9d2b566152cc37986ae1cf6a2837f6);
    var x8, y8 := 0x2f0a683b6a5038e653ade3c9d8697e23fc12b74f29d56cd578196dca1a034b65, 0x11ea939f8a5f1b555d02d731234b36424b42101edc10d853c72a37f1008be8b2;
    ThenTwice(0x18436910d3ea35e6f4364872494275, 0x7221bf6b0087441437aa3fd4855ff2, x7, y7, 0xb5be315e1dc3c407d5f15a5804b1ae0506954bde5cfdef5a629186f8554fd17c, x8, y8,
      0x7530f7c2745917c11911c367f5bb9264b9db3ebf2066d0ca29ef7e3c03185ff0, 0x81067f1c67502bc8e06dc1c813a2de3f6d5b3f194eff88f5b2d65acfc6179375,
      0x2ca2627ba8a4dc9999e053d3f62c4c65c2a316325655a9a485ec8b1a8f9d7784);
  }

  lemma Reach27()
    requires Reached(0x3086d221a7d46bcde86c90e49284ea, 0xe4437ed6010e88286f547fa90abfe4,
      0x2f0a683b6a5038e653ade3c9d8697e23fc12b74f29d56cd578196dca1a034b65, 0x11ea939f8a5f1b555d02d731234b36424b42101edc10d853c72a37f1008be8b2)
    ensures Reached(0x3086d221a7d46bcde86c90e49284eb1, 0xe4437ed6010e88286f547fa90abfe4c,
      0xc0627a1e5ca592325144bc0d28a450de00c12673c74dfdc6624034a746d6ab40, 0x21ccfa8e7674835ef92a2c3da7829c10105f661e0628888d5fbd6fd44f33756b)
  {
    var x0, y0 := 0x2f0a683b6a5038e653ade3c9d8697e23fc12b74f29d56cd578196dca1a034b65, 0x11ea939f8a5f1b555d02d731234b36424b42101edc10d853c72a37f1008be8b2;
    var x1, y1 := 0xaf892c91dc3426df83c4b7dfc2043005ae87b865c499d51b57b01a18ad1e7bd3, 0xc7885d9940fc10a7927ba102a7fb0832c4e7d467a0f76d2fa8cc92a556611de0;
    ThenPlus(0x3086d221a7d46bcde86c90e49284ea, 0xe4437ed6010e88286f547fa90abfe4, x0, y0, OfG, 0xdcffd5678c5faef065d7bea1e2bdafd7e7a23833b98b08ba7de380b58bd1b9b9, x1, y1,
      0x407d56124e989bdbe21b127a0c5815ee3557103d277bf5f758adbc1e66f16f3b, 0xbec8b674cf7394c52d094d793867c08471d240125915ac3bfa0cd73219fdb7ef,
      -0x6eed5a1d4ecd984f9e05a30f0c3754486462c771477176b6ea0702fc5cdf68f0);
    var x2, y2 := 0x66e3a0ffd5aceec0fbead85c74b72605898c1403c0a93d655b6eac40933ada88, 0xb1797330910e9fb0d6ffbd8dbd1f39795d5e4cb08d3580cc3042a9e2bfb6dd89;
    ThenTwice(0x3086d221a7d46bcde86c90e49284eb, 0xe4437ed6010e88286f547fa90abfe4, x1, y1, 0x350ecc81b706c401d885b2a2eb275a5d4089fb60a0163697f8de80047d626cbd, x2, y2,
      -0x11660f4d93938cb0f52252ca719ecbc21a269e6718ff13823bd2fc9f7dc9346f5, 0xaff2188b757cf52f3ea31f0b459d1e9a225ebae229f8d09cbbefb6a19ebb695,
      0xf0e78fb97ea4e125bb0ec253b506e97659a69d3d96f29d7bc4e40fb0b27e6ea);
    var x3, y3 := 0x62cfaf22fb96dac89613fc9fe3442d826b5a8764d412a0c17c20143ca6bea861, 0x6cd3cacfef360052d607afda61dfc2a8c64bc4b962ea00fa79f83da6c1056ee1;
    ThenPlus(0x610da4434fa8d79bd0d921c92509d6, 0x1c886fdac021d1050dea8ff52157fc8, x2, y2, OfH, 0xe772d3078d0076d94ddce3af8f1781cf08d4846ad2f2d90032ba3e57736fa390, x3, y3,
      0x4d8f14d0b69bf34e1ebefc3f800624e2e5e262211bb57e9a990331718ba59cde, 0xd1406c584125dd8dcba834c994f215b9ef462237934f652052ece3705ad1f774,
      0x3afd37c8c46acbf7d51ffee7dfb734cead55ed313d27f6ef602d6eff4c4ca5a);
    var x4, y4 := 0x1ee44ad1618bafe1990e493f061518910429e96245d70daf145deb9ecc3f2851, 0x1ec22d186985f296f0258544d124f72ac332634017f10a4b650fa90a83b0d546;
    ThenTwice(0x610da4434fa8d79bd0d921c92509d6, 0x1c886fdac021d1050dea8ff52157fc9, x3, y3, 0x1cd9600722dd6341760e6dad7dd5296ed46635565b6477853f93cd770a62e014, x4, y4,
      -0x59e3daaa36dcc2512b69367ee616ec0bc641f48d809b1af1d08364f9d96308d5, 0x34045957fbee3618e196065138f6e6502a6e4b17204b32b98a2a33455bcff13,
      0x7a76afb20532405dea7b77e33ccdffc1d9dbe294e851db82e2d9fd6c93ba137);
    var x5, y5 := 0xc8c5876b3696f9931c97fa9dd35d761e5c1a8fe9eda5bf111c77fed425057c63, 0x98dfef978a5caf7932adba11bd466950545e6fef5d70831b2a644f699f1a0ec5;
    ThenPlus(0xc21b48869f51af37a1b243924a13ac, 0x3910dfb58043a20a1bd51fea42aff92, x4, y4, OfH, 0x69ac4b62878383f0dc55ac80e37d5528652aa4566da7bd567cac57b699c6f808, x5, y5,
      0x4121779e9fcbe6b01d2f03b51159c67bd6ede4a34271b788342c42aedd3b2d91, 0x2b9ec9cc35c2dc47f82278dcc15e57fb35c9840c460cdd8ef4b9aff0954b8b0f,
      -0x461fb7362ea415e26893fcf6c1851c81dc5edff9ef4cfc53e48112c1678c1755);
    var x6, y6 := 0xe43d311aad22834c29d9e55e80de19dfefef2283d1aca3a7ee97daeef1ce992b, 0xae176ad91cc42e0352546b9ea80d0e221f8f0339aaa9a2898767527e7524b39f;
    ThenTwice(0xc21b48869f51af37a1b243924a13ac, 0x3910dfb58043a20a1bd51fea42aff93, x5, y5, 0xa2145ba40b630728f5695c7207195ec1ee1ac29dadcde19cda3c1e89d4502a00, x6, y6,
      -0x116cbf8574c2b58f42c9e8483d5c63ad86511f24e66cccaeaf77d8d073b32d915, 0x669dc59a10d925bff379a556287cdc720d91fc56d954646c40850b94840cd421,
      -0x1163e88f6dec67ef3bcfbbe580ac27e8bea4946fbb0daadb49937ee7165a46dc);
    var x7, y7 := 0x3a49bbc6f45d4ecfd3ae401af8cc75373c19a3feb208fa607546cca57cffd25d, 0xc9cc94434f92bcc046c34a2730756764e196f24dd144d7f2cb3c1e83dca5e7bd;
    ThenTwice(0x18436910d3ea35e6f43648724942758, 0x7221bf6b0087441437aa3fd4855ff26, x6, y6, 0xe70b85a2527ee36027efb9ff9783030a98e6c4a23010354c5dd235fab0ae8370, x7, y7,
      -0x128393bafc226b4d07325391960b6d05a8bee74e62aabe60abf2789fbe66c5c65, 0xd085cbafb29625e36dc548051840fdbd385d3b7159a26abee974082289adf443,
      0x9962550bd51bd92a1b657a33f6a4400c5fc11d37e589d6027d7525ccf679fe7c);
    var x8, y8 := 0xc0627a1e5ca592325144bc0d28a450de00c12673c74dfdc6624034a746d6ab40, 0x21ccfa8e7674835ef92a2c3da7829c10105f661e0628888d5fbd6fd44f33756b;
    ThenPlus(0x3086d221a7d46bcde86c90e49284eb0, 0xe4437ed6010e88286f547fa90abfe4c, x7, y7, OfG, 0xbd37fa85f1b9105d5bd83fc1fe008562890b1b3cb01c0ed573b69e80467ed9da, x8, y8,
      0x2ee70233abd75ccd85cd1aa0899488a416678d7b072f9819c1d0339f55c62a2d, 0x8bdbb42761a301e1643a140c1088c0f60a68739fe42a32c44ba239b4c636b7c1,
      -0x631d9711c01f3c2a398f5783d3cf1d5b068e5f9cbe58c528ede411ec5e55526a);
  }

  lemma Reach28()
    requires Reached(0x3086d221a7d46bcde86c90e49284eb1, 0xe4437ed6010e88286f547fa90abfe4c,
      0xc0627a1e5ca592325144bc0d28a450de00c12673c74dfdc6624034a746d6ab40, 0x21ccfa8e7674835ef92a2c3da7829c10105f661e0628888d5fbd6fd44f33756b)
    ensures Reached(0x3086d221a7d46bcde86c90e49284eb14, 0xe4437ed6010e88286f547fa90abfe4c2,
      0x93c4d65b4cc437be9f2b0aa72325ba6ce5015022596e21f2ea6eadae415a87b0, 0x21789ac4e8872c808816bfc96d426a90a2be64e49dacf635af8cf042fc8f98dd)
  {
    var x0, y0 := 0xc0627a1e5ca592325144bc0d28a450de00c12673c74dfdc6624034a746d6ab40, 0x21ccfa8e7674835ef92a2c3da7829c10105f661e0628888d5fbd6fd44f33756b;
    var x1, y1 := 0xb2a9fe1e95c1d2658987565239ce2a48898f161110a56eb21ed9f2c47581f5e1, 0x40c535a4577320d9c1b3fe024e0c2bb66081efc906772da3bd4312a289048943;
    ThenTwice(0x3086d221a7d46bcde86c90e49284eb1, 0xe4437ed6010e88286f547fa90abfe4c, x0, y0, 0x248bea89c6de5e7d32a325176fcfb7909ffb5ee88bd09fc2af8f33f30906d378, x1, y1,
      -0x1a814fe2e896ee959825e1adb587c1dcfb9cd18b3383c45ec2e8bf0f4e3a88550, 0x537a66f486ca9c2cb6d9d7cffaac16e4e22189877424c2c04cefd4f5dccdf51,
      0x1f5712d4f93c7435c6fc6bed15300491b144e0872e9bfbc7bbe02cda3530246);
    var x2, y2 := 0xe909c2d4a2e624237e283e354755186818742c567345dd996b1697b72fd932eb, 0x5786f437060543e003e3eb3e0c1aaeca7997d2e3d7d500a16bcd768b7cc2f1ad;
    ThenTwice(0x610da4434fa8d79bd0d921c92509d62, 0x1c886fdac021d1050dea8ff52157fc98, x1, y1, 0xe70a92b1bab547fc83a506953903f142cceafb26d7781e424543ae41ef1d9468, x2, y2,
      -0x10129425a73a55d6d843481b87e00d4732fdc5dd7ac6e26ca9ab29b0a1349d89d, 0xd084152c88e4f26dd2439915e4dee01bddc64865f9fd5589412d9708a94219dd,
      -0x3112a96653073477f1f177158b90179702765f429ce375409e5e4211d67e2100);
    var x3, y3 := 0x81d499c26fd281e3f5d75ed4d3d9cd79bab7a28b544eaab6a87e2ced4e7df1a4, 0x17e0a335149a53a1448693ec0fd4343c06340895bc7c6d1b4be7621645a87703;
    ThenPlus(0xc21b48869f51af37a1b243924a13ac4, 0x3910dfb58043a20a1bd51fea42aff930, x2, y2, OfG, 0x1c1178d49668a459211816084da30ac68b9b1aa3379bdb7117c9a2eda7b67c6a, x3, y3,
      -0xc33d6a23f41856417b0435e1c78c418fbe1656ef6c2ac77726a10c2366577e7, 0x313d39fc62adb64e2d638088757af5ed207c6707543b448fca6a93bdfcf4bd3,
      0xb50dbbc57b56afb8fe5cb90c3f21bcd5d69451bd50ba47ef22da8ba708bcd2a);
    var x4, y4 := 0x8756683ef3b74c99aa93679d41208d3f858d89ba5d6a6f2ce3df9101794462b7, 0xc051f1e3280253762bc7aa9a5a40482e06de15b06e39d6f876fcfb8f62fb2328;
    ThenTwice(0xc21b48869f51af37a1b243924a13ac5, 0x3910dfb58043a20a1bd51fea42aff930, x3, y3, 0xe46ba72823f6f55b661786d945dc424eec0b181d475057cd814d4bd5c11b3886, x4, y4,
      -0x9aeba2e164562d22586f0c2296e33db35b4b1d53695408ddfdd4a169fafa95b4, 0xcbcfef04a8c35ab35e98a0f3cc150f688dfdc21977e79788dbc04db7a342afeb,
      -0x4e9ecc0be4471e80e890799573514f5ed0eed39b56450205e7582994971a773);
    var x5, y5 := 0x326492506a33a4d8914e861a2a30ef8532927f9d9ffc92b5a7046c32a4b9e8f8, 0xecd214da517cdf41e397b246fa21e574ff9503286b2bdf2fd7b03284890d60e2;
    ThenPlus(0x18436910d3ea35e6f43648724942758a, 0x7221bf6b0087441437aa3fd4855ff260, x4, y4, OfH, 0x9980a884d9264b48d44879340d4b878f421b7f69765accdf57716c4736f62b0e, x5, y5,
      0x1ffb7da9c3369e47f8f7d3da64f5577379adc4bbc3980086a8e57985b3cbce87, 0x5c0b0a17bf578e3b4112146f5d6886ca6de594dd31b7f56d4e11f2207d1a16d6,
      0x32ef39b15098fd8b8eba66e172a31ee84821b507a9c4b979ed8978d59e337b18);
    var x6, y6 := 0x93c4d65b4cc437be9f2b0aa72325ba6ce5015022596e21f2ea6eadae415a87b0, 0x21789ac4e8872c808816bfc96d426a90a2be64e49dacf635af8cf042fc8f98dd;
    ThenTwice(0x18436910d3ea35e6f43648724942758a, 0x7221bf6b0087441437aa3fd4855ff261, x5, y5, 0xc1e04070a5220e5e3b6799ac301c0f175b8c8c43aea754b270fe3674b0f5cd6a, x6, y6,
      0x148f15850fce536c98fea77a36685bbb9abda8ad733aa55d6d957c61c5667e618, 0x92d3e59aae56d96529fac6379fc4d35f8b70910acc5a914000dc0f5a068b28fc,
      -0x49bee00aa845bac266dc9b22418088cdb64c7fbacb79263d482c22df8c149e41);
  }
}
