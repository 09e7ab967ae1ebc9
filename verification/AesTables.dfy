/**
 * The lookup tables of omap/crypto/aes_generic.c, all four quarters of each.
 *
 * A table is a decision on the high bits of the index followed by a selection from a row of sixteen words; rows are
 * written with the entry of index 0 last.
 */
module AesTables {

  // ---------------------------------------------------------------- words and bytes

  function Word(a: bv8, b: bv8, c: bv8, d: bv8): bv32 {
    (a as bv32) | ((b as bv32) << 8) | ((c as bv32) << 16) | ((d as bv32) << 24)
  }

  function Ror8(x: bv32): bv32 { (x >> 8) | (x << 24) }

  function Ror16(x: bv32): bv32 { (x >> 16) | (x << 16) }

  function Ror24(x: bv32): bv32 { (x >> 24) | (x << 8) }

  /** Multiplication by x in the field of section 4.2.1 of FIPS 197. */
  function Xt(a: bv8): bv8 {
    var t := a >> 7;
    (a << 1) ^ t ^ (t << 1) ^ (t << 3) ^ (t << 4)
  }

  /** Shift, and reduce by the polynomial 0x11b if a bit falls out. */
  lemma XtReduces(a: bv8)
    ensures Xt(a) == (a << 1) ^ (if a & 0x80 == 0 then 0 else 0x1b)
  {
  }

  /** Addition in the field. */
  function Add(x: bv8, y: bv8): bv8 { x ^ y }

  function Xt3(x: bv8): bv8 { Xt(Xt(Xt(x))) }

  function Mul3(x: bv8): bv8 { Add(Xt(x), x) }

  function Mul9(x: bv8): bv8 { Add(Xt3(x), x) }

  function Mul11(x: bv8): bv8 { Add(Xt3(x), Add(Xt(x), x)) }

  function Mul13(x: bv8): bv8 { Add(Xt3(x), Add(Xt(Xt(x)), x)) }

  function Mul14(x: bv8): bv8 { Add(Xt3(x), Add(Xt(Xt(x)), Xt(x))) }

  /** A byte at one of the four places of a word. */
  function At0(b: bv8): bv32 { b as bv32 }

  function At1(b: bv8): bv32 { (b as bv32) << 8 }

  function At2(b: bv8): bv32 { (b as bv32) << 16 }

  function At3(b: bv8): bv32 { (b as bv32) << 24 }

  // ---------------------------------------------------------------- the tables

  function SelectWord(row: bv512, x: bv8): bv32 {
    var a := if x & 8 == 0 then row else row >> 256;
    var b := if x & 4 == 0 then a else a >> 128;
    var c := if x & 2 == 0 then b else b >> 64;
    var d := if x & 1 == 0 then c else c >> 32;
    (d & 0xffffffff) as bv32
  }

  /** crypto_ft_tab */
  function Ft0(x: bv8): bv32 { SelectWord(FtRow0(x), x) }

  function Ft1(x: bv8): bv32 { SelectWord(FtRow1(x), x) }

  function Ft2(x: bv8): bv32 { SelectWord(FtRow2(x), x) }

  function Ft3(x: bv8): bv32 { SelectWord(FtRow3(x), x) }

  /** crypto_fl_tab */
  function Fl0(x: bv8): bv32 { SelectWord(FlRow0(x), x) }

  function Fl1(x: bv8): bv32 { SelectWord(FlRow1(x), x) }

  function Fl2(x: bv8): bv32 { SelectWord(FlRow2(x), x) }

  function Fl3(x: bv8): bv32 { SelectWord(FlRow3(x), x) }

  /** crypto_it_tab */
  function It0(x: bv8): bv32 { SelectWord(ItRow0(x), x) }

  function It1(x: bv8): bv32 { SelectWord(ItRow1(x), x) }

  function It2(x: bv8): bv32 { SelectWord(ItRow2(x), x) }

  function It3(x: bv8): bv32 { SelectWord(ItRow3(x), x) }

  /** crypto_il_tab */
  function Il0(x: bv8): bv32 { SelectWord(IlRow0(x), x) }

  function Il1(x: bv8): bv32 { SelectWord(IlRow1(x), x) }

  function Il2(x: bv8): bv32 { SelectWord(IlRow2(x), x) }

  function Il3(x: bv8): bv32 { SelectWord(IlRow3(x), x) }

  /** The substitution table, which is the first quarter of crypto_fl_tab. */
  function Sbox(x: bv8): bv8 { (Fl0(x) & 0xff) as bv8 }

  /** The inverse one, from crypto_il_tab. */
  function InvSbox(x: bv8): bv8 { (Il0(x) & 0xff) as bv8 }

  function FtRow0(x: bv8): bv512 {
    if x & 0x80 == 0 then
      if x & 0x40 == 0 then
        if x & 0x20 == 0 then
          if x & 0x10 == 0
          then 0x9a7676ece6abab4d62d7d7b519fefee77d2b2b56a96767ce030101025030306054c5c591b16f6fdebd6b6bd60df2f2ff8d7b7bf6997777ee847c7cf8a56363c6
          else 0x5bc0c09b967272e4f7a4a453bf9c9c23eaafaf45fda2a25f67d4d4b3ecadad410bf0f0fbc947478eeb5959b215fafaef877d7dfa40c9c9899d82821f45caca8f
        else
          if x & 0x10 == 0
          then 0x3f15152a5331316273d8d8ab937171e208f1f1f934e5e5d1f4a5a5515c3434684fcccc8302f7f7f5413f3f7e5a36366c6a26264cae93933d1cfdfde1c2b7b775
          else 0x9f7575eacdb2b27f6927274e26ebebcd3de2e2df9b80801b361212240907070eb59a9a2f0f05050aa1969637281818305ec3c39d6523234652c7c7950c040408
      else
        if x & 0x20 == 0 then
          if x & 0x10 == 0
          then 0x97848413712f2f5e3ee3e3dd7b292952ceb3b37d61d6d6b74d3b3b76f65252a4fba0a05bee5a5ab4b26e6edc2d1b1b362e1a1a34742c2c589e83831d1b090912
          else 0x4acfcf85e85858b0d44c4c98de4a4a944b393972d9bebe6746cbcb8dbe6a6ad4ed5b5bb6c8b1b1791ffcfce3602020402cededc10000000068d1d1b9f55353a6
        else
          if x & 0x10 == 0
          then 0xe3a8a84bba9f9f25443c3c78f05050a0817f7ffe0602020410f9f9e9cf45458a9485851155333366d74d4d9ac543438616fbfbede5aaaa4f2aefefc56bd0d0bb
          else 0x6dd2d2bf0ef3f3fd1affffe5301010206321214275dadaafc1b6b677dfbcbc6304f5f5f148383870bc9d9d21ad92923f8a8f8f05c0404080fea3a35df35151a2
    else
      if x & 0x40 == 0 then
        if x & 0x20 == 0 then
          if x & 0x10 == 0
          then 0x957373e62b191932e75d5dbaac6464c8473d3d7a827e7efcf2a7a75557c4c4933917172ecc444488a2979735e15f5fbe2fececc335131326140c0c184ccdcd81
          else 0x76dbdbad1d0b0b16e25e5ebc79dedea73c141428d3b8b86b29eeeec7ca46468c8388880bab90903b7e2a2a54662222447fdcdca3d14f4f9e98818119a06060c0
        else
          if x & 0x10 == 0
          then 0x8b7979f237e4e4d3a4959531a8919139a66262c4efacac436ed3d3bd5dc2c29fe45c5cb86c2424480a06060cdb4949921e0a0a144e3a3a74563232643be0e0db
          else 0x18080810e9aeae478e7a7af4af6565ca25eaeacf07f4f4f3fa5656acb46c6cd8e0a9a949d24e4e9c64d5d5b18c8d8d01b76d6dda5937376e43c8c88b32e7e7d5
      else
        if x & 0x20 == 0 then
          if x & 0x10 == 0
          then 0x858a8a0f868b8b0ddcbdbd61dd4b4b96211f1f3e9c7474e87cdddda123e8e8cb51c6c697c7b4b473f1a6a657241c1c38722e2e5c6f25254a887878f0d5baba6f
          else 0xb99e9e27271d1d3a58c1c19991868617d0b9b969f95757ae5f35356aa36161c2120e0e1c01f6f6f705030306d8484890aa6666ccc4b5b571423e3e7c907070e0
        else
          if x & 0x10 == 0
          then 0x7adfdfa578282850ff5555aa49cece8720e9e9c992878715221e1e3cb69b9b2da7949433898e8e0770d9d9a9bb6969d233111122b398982b13f8f8eb38e1e1d9
          else 0x3a16162cd6bbbb6dfc5454a8cbb0b07b110f0f1e772d2d5ab0999929c3414182b86868d0c642428431e6e6d7dabfbf65170d0d1a80898909f8a1a1598f8c8c03
  }

  function FtRow1(x: bv8): bv512 {
    if x & 0x80 == 0 then
      if x & 0x40 == 0 then
        if x & 0x20 == 0 then
          if x & 0x10 == 0
          then 0x7676ec9aabab4de6d7d7b562fefee7192b2b567d6767cea90101020330306050c5c591546f6fdeb16b6bd6bdf2f2ff0d7b7bf68d7777ee997c7cf8846363c6a5
          else 0xc0c09b5b7272e496a4a453f79c9c23bfafaf45eaa2a25ffdd4d4b367adad41ecf0f0fb0b47478ec95959b2ebfafaef157d7dfa87c9c9894082821f9dcaca8f45
        else
          if x & 0x10 == 0
          then 0x15152a3f31316253d8d8ab737171e293f1f1f908e5e5d134a5a551f43434685ccccc834ff7f7f5023f3f7e4136366c5a26264c6a93933daefdfde11cb7b775c2
          else 0x7575ea9fb2b27fcd27274e69ebebcd26e2e2df3d80801b9b1212243607070e099a9a2fb505050a0f969637a118183028c3c39d5e23234665c7c795520404080c
      else
        if x & 0x20 == 0 then
          if x & 0x10 == 0
          then 0x848413972f2f5e71e3e3dd3e2929527bb3b37dced6d6b7613b3b764d5252a4f6a0a05bfb5a5ab4ee6e6edcb21b1b362d1a1a342e2c2c587483831d9e0909121b
          else 0xcfcf854a5858b0e84c4c98d44a4a94de3939724bbebe67d9cbcb8d466a6ad4be5b5bb6edb1b179c8fcfce31f20204060ededc12c00000000d1d1b9685353a6f5
        else
          if x & 0x10 == 0
          then 0xa8a84be39f9f25ba3c3c78445050a0f07f7ffe8102020406f9f9e91045458acf85851194333366554d4d9ad7434386c5fbfbed16aaaa4fe5efefc52ad0d0bb6b
          else 0xd2d2bf6df3f3fd0effffe51a1010203021214263dadaaf75b6b677c1bcbc63dff5f5f104383870489d9d21bc92923fad8f8f058a404080c0a3a35dfe5151a2f3
    else
      if x & 0x40 == 0 then
        if x & 0x20 == 0 then
          if x & 0x10 == 0
          then 0x7373e6951919322b5d5dbae76464c8ac3d3d7a477e7efc82a7a755f2c4c4935717172e39444488cc979735a25f5fbee1ececc32f131326350c0c1814cdcd814c
          else 0xdbdbad760b0b161d5e5ebce2dedea7791414283cb8b86bd3eeeec72946468cca88880b8390903bab2a2a547e22224466dcdca37f4f4f9ed1818119986060c0a0
        else
          if x & 0x10 == 0
          then 0x7979f28be4e4d337959531a4919139a86262c4a6acac43efd3d3bd6ec2c29f5d5c5cb8e42424486c06060c0a494992db0a0a141e3a3a744e32326456e0e0db3b
          else 0x08081018aeae47e97a7af48e6565caafeaeacf25f4f4f3075656acfa6c6cd8b4a9a949e04e4e9cd2d5d5b1648d8d018c6d6ddab737376e59c8c88b43e7e7d532
      else
        if x & 0x20 == 0 then
          if x & 0x10 == 0
          then 0x8a8a0f858b8b0d86bdbd61dc4b4b96dd1f1f3e217474e89cdddda17ce8e8cb23c6c69751b4b473c7a6a657f11c1c38242e2e5c7225254a6f7878f088baba6fd5
          else 0x9e9e27b91d1d3a27c1c1995886861791b9b969d05757aef935356a5f6161c2a30e0e1c12f6f6f70103030605484890d86666ccaab5b571c43e3e7c427070e090
        else
          if x & 0x10 == 0
          then 0xdfdfa57a282850785555aaffcece8749e9e9c920878715921e1e3c229b9b2db6949433a78e8e0789d9d9a9706969d2bb1111223398982bb3f8f8eb13e1e1d938
          else 0x16162c3abbbb6dd65454a8fcb0b07bcb0f0f1e112d2d5a77999929b0414182c36868d0b8424284c6e6e6d731bfbf65da0d0d1a1789890980a1a159f88c8c038f
  }

  function FtRow2(x: bv8): bv512 {
    if x & 0x80 == 0 then
      if x & 0x40 == 0 then
        if x & 0x20 == 0 then
          if x & 0x10 == 0
          then 0x76ec9a76ab4de6abd7b562d7fee719fe2b567d2b67cea9670102030130605030c59154c56fdeb16f6bd6bd6bf2ff0df27bf68d7b77ee99777cf8847c63c6a563
          else 0xc09b5bc072e49672a453f7a49c23bf9caf45eaafa25ffda2d4b367d4ad41ecadf0fb0bf0478ec94759b2eb59faef15fa7dfa877dc98940c9821f9d82ca8f45ca
        else
          if x & 0x10 == 0
          then 0x152a3f1531625331d8ab73d871e29371f1f908f1e5d134e5a551f4a534685c34cc834fccf7f502f73f7e413f366c5a36264c6a26933dae93fde11cfdb775c2b7
          else 0x75ea9f75b27fcdb2274e6927ebcd26ebe2df3de2801b9b8012243612070e09079a2fb59a050a0f059637a19618302818c39d5ec323466523c79552c704080c04
      else
        if x & 0x20 == 0 then
          if x & 0x10 == 0
          then 0x841397842f5e712fe3dd3ee329527b29b37dceb3d6b761d63b764d3b52a4f652a05bfba05ab4ee5a6edcb26e1b362d1b1a342e1a2c58742c831d9e8309121b09
          else 0xcf854acf58b0e8584c98d44c4a94de4a39724b39be67d9becb8d46cb6ad4be6a5bb6ed5bb179c8b1fce31ffc20406020edc12ced00000000d1b968d153a6f553
        else
          if x & 0x10 == 0
          then 0xa84be3a89f25ba9f3c78443c50a0f0507ffe817f02040602f9e910f9458acf4585119485336655334d9ad74d4386c543fbed16fbaa4fe5aaefc52aefd0bb6bd0
          else 0xd2bf6dd2f3fd0ef3ffe51aff1020301021426321daaf75dab677c1b6bc63dfbcf5f104f5387048389d21bc9d923fad928f058a8f4080c040a35dfea351a2f351
    else
      if x & 0x40 == 0 then
        if x & 0x20 == 0 then
          if x & 0x10 == 0
          then 0x73e6957319322b195dbae75d64c8ac643d7a473d7efc827ea755f2a7c49357c4172e39174488cc449735a2975fbee15fecc32fec132635130c18140ccd814ccd
          else 0xdbad76db0b161d0b5ebce25edea779de14283c14b86bd3b8eec729ee468cca46880b8388903bab902a547e2a22446622dca37fdc4f9ed14f8119988160c0a060
        else
          if x & 0x10 == 0
          then 0x79f28b79e4d337e49531a4959139a89162c4a662ac43efacd3bd6ed3c29f5dc25cb8e45c24486c24060c0a064992db490a141e0a3a744e3a32645632e0db3be0
          else 0x08101808ae47e9ae7af48e7a65caaf65eacf25eaf4f307f456acfa566cd8b46ca949e0a94e9cd24ed5b164d58d018c8d6ddab76d376e5937c88b43c8e7d532e7
      else
        if x & 0x20 == 0 then
          if x & 0x10 == 0
          then 0x8a0f858a8b0d868bbd61dcbd4b96dd4b1f3e211f74e89c74dda17cdde8cb23e8c69751c6b473c7b4a657f1a61c38241c2e5c722e254a6f2578f08878ba6fd5ba
          else 0x9e27b99e1d3a271dc19958c186179186b969d0b957aef957356a5f3561c2a3610e1c120ef6f701f6030605034890d84866ccaa66b571c4b53e7c423e70e09070
        else
          if x & 0x10 == 0
          then 0xdfa57adf2850782855aaff55ce8749cee9c920e9871592871e3c221e9b2db69b9433a7948e07898ed9a970d969d2bb6911223311982bb398f8eb13f8e1d938e1
          else 0x162c3a16bb6dd6bb54a8fc54b07bcbb00f1e110f2d5a772d9929b0994182c34168d0b8684284c642e6d731e6bf65dabf0d1a170d89098089a159f8a18c038f8c
  }

  function FtRow3(x: bv8): bv512 {
    if x & 0x80 == 0 then
      if x & 0x40 == 0 then
        if x & 0x20 == 0 then
          if x & 0x10 == 0
          then 0xec9a76764de6ababb562d7d7e719fefe567d2b2bcea9676702030101605030309154c5c5deb16f6fd6bd6b6bff0df2f2f68d7b7bee997777f8847c7cc6a56363
          else 0x9b5bc0c0e496727253f7a4a423bf9c9c45eaafaf5ffda2a2b367d4d441ecadadfb0bf0f08ec94747b2eb5959ef15fafafa877d7d8940c9c91f9d82828f45caca
        else
          if x & 0x10 == 0
          then 0x2a3f151562533131ab73d8d8e2937171f908f1f1d134e5e551f4a5a5685c3434834fccccf502f7f77e413f3f6c5a36364c6a26263dae9393e11cfdfd75c2b7b7
          else 0xea9f75757fcdb2b24e692727cd26ebebdf3de2e21b9b8080243612120e0907072fb59a9a0a0f050537a19696302818189d5ec3c3466523239552c7c7080c0404
      else
        if x & 0x20 == 0 then
          if x & 0x10 == 0
          then 0x139784845e712f2fdd3ee3e3527b29297dceb3b3b761d6d6764d3b3ba4f652525bfba0a0b4ee5a5adcb26e6e362d1b1b342e1a1a58742c2c1d9e8383121b0909
          else 0x854acfcfb0e8585898d44c4c94de4a4a724b393967d9bebe8d46cbcbd4be6a6ab6ed5b5b79c8b1b1e31ffcfc40602020c12ceded00000000b968d1d1a6f55353
        else
          if x & 0x10 == 0
          then 0x4be3a8a825ba9f9f78443c3ca0f05050fe817f7f04060202e910f9f98acf454511948585665533339ad74d4d86c54343ed16fbfb4fe5aaaac52aefefbb6bd0d0
          else 0xbf6dd2d2fd0ef3f3e51affff2030101042632121af75dada77c1b6b663dfbcbcf104f5f57048383821bc9d9d3fad9292058a8f8f80c040405dfea3a3a2f35151
    else
      if x & 0x40 == 0 then
        if x & 0x20 == 0 then
          if x & 0x10 == 0
          then 0xe6957373322b1919bae75d5dc8ac64647a473d3dfc827e7e55f2a7a79357c4c42e39171788cc444435a29797bee15f5fc32fecec2635131318140c0c814ccdcd
          else 0xad76dbdb161d0b0bbce25e5ea779dede283c14146bd3b8b8c729eeee8cca46460b8388883bab9090547e2a2a44662222a37fdcdc9ed14f4f19988181c0a06060
        else
          if x & 0x10 == 0
          then 0xf28b7979d337e4e431a4959539a89191c4a6626243efacacbd6ed3d39f5dc2c2b8e45c5c486c24240c0a060692db4949141e0a0a744e3a3a64563232db3be0e0
          else 0x1018080847e9aeaef48e7a7acaaf6565cf25eaeaf307f4f4acfa5656d8b46c6c49e0a9a99cd24e4eb164d5d5018c8d8ddab76d6d6e5937378b43c8c8d532e7e7
      else
        if x & 0x20 == 0 then
          if x & 0x10 == 0
          then 0x0f858a8a0d868b8b61dcbdbd96dd4b4b3e211f1fe89c7474a17cddddcb23e8e89751c6c673c7b4b457f1a6a638241c1c5c722e2e4a6f2525f08878786fd5baba
          else 0x27b99e9e3a271d1d9958c1c11791868669d0b9b9aef957576a5f3535c2a361611c120e0ef701f6f60605030390d84848ccaa666671c4b5b57c423e3ee0907070
        else
          if x & 0x10 == 0
          then 0xa57adfdf50782828aaff55558749cecec920e9e9159287873c221e1e2db69b9b33a7949407898e8ea970d9d9d2bb6969223311112bb39898eb13f8f8d938e1e1
          else 0x2c3a16166dd6bbbba8fc54547bcbb0b01e110f0f5a772d2d29b0999982c34141d0b8686884c64242d731e6e665dabfbf1a170d0d0980898959f8a1a1038f8c8c
  }

  function FlRow0(x: bv8): bv512 {
    if x & 0x80 == 0 then
      if x & 0x40 == 0 then
        if x & 0x20 == 0 then
          if x & 0x10 == 0
          then 0x00000076000000ab000000d7000000fe0000002b000000670000000100000030000000c50000006f0000006b000000f20000007b000000770000007c00000063
          else 0x000000c000000072000000a40000009c000000af000000a2000000d4000000ad000000f00000004700000059000000fa0000007d000000c900000082000000ca
        else
          if x & 0x10 == 0
          then 0x0000001500000031000000d800000071000000f1000000e5000000a500000034000000cc000000f70000003f000000360000002600000093000000fd000000b7
          else 0x00000075000000b200000027000000eb000000e20000008000000012000000070000009a000000050000009600000018000000c300000023000000c700000004
      else
        if x & 0x20 == 0 then
          if x & 0x10 == 0
          then 0x000000840000002f000000e300000029000000b3000000d60000003b00000052000000a00000005a0000006e0000001b0000001a0000002c0000008300000009
          else 0x000000cf000000580000004c0000004a00000039000000be000000cb0000006a0000005b000000b1000000fc00000020000000ed00000000000000d100000053
        else
          if x & 0x10 == 0
          then 0x000000a80000009f0000003c000000500000007f00000002000000f90000004500000085000000330000004d00000043000000fb000000aa000000ef000000d0
          else 0x000000d2000000f3000000ff0000001000000021000000da000000b6000000bc000000f5000000380000009d000000920000008f00000040000000a300000051
    else
      if x & 0x40 == 0 then
        if x & 0x20 == 0 then
          if x & 0x10 == 0
          then 0x00000073000000190000005d000000640000003d0000007e000000a7000000c40000001700000044000000970000005f000000ec000000130000000c000000cd
          else 0x000000db0000000b0000005e000000de00000014000000b8000000ee0000004600000088000000900000002a00000022000000dc0000004f0000008100000060
        else
          if x & 0x10 == 0
          then 0x00000079000000e4000000950000009100000062000000ac000000d3000000c20000005c0000002400000006000000490000000a0000003a00000032000000e0
          else 0x00000008000000ae0000007a00000065000000ea000000f4000000560000006c000000a90000004e000000d50000008d0000006d00000037000000c8000000e7
      else
        if x & 0x20 == 0 then
          if x & 0x10 == 0
          then 0x0000008a0000008b000000bd0000004b0000001f00000074000000dd000000e8000000c6000000b4000000a60000001c0000002e0000002500000078000000ba
          else 0x0000009e0000001d000000c100000086000000b90000005700000035000000610000000e000000f6000000030000004800000066000000b50000003e00000070
        else
          if x & 0x10 == 0
          then 0x000000df0000002800000055000000ce000000e9000000870000001e0000009b000000940000008e000000d9000000690000001100000098000000f8000000e1
          else 0x00000016000000bb00000054000000b00000000f0000002d00000099000000410000006800000042000000e6000000bf0000000d00000089000000a10000008c
  }

  function FlRow1(x: bv8): bv512 {
    if x & 0x80 == 0 then
      if x & 0x40 == 0 then
        if x & 0x20 == 0 then
          if x & 0x10 == 0
          then 0x000076000000ab000000d7000000fe0000002b000000670000000100000030000000c50000006f0000006b000000f20000007b000000770000007c0000006300
          else 0x0000c000000072000000a40000009c000000af000000a2000000d4000000ad000000f00000004700000059000000fa0000007d000000c900000082000000ca00
        else
          if x & 0x10 == 0
          then 0x00001500000031000000d800000071000000f1000000e5000000a500000034000000cc000000f70000003f000000360000002600000093000000fd000000b700
          else 0x000075000000b200000027000000eb000000e20000008000000012000000070000009a000000050000009600000018000000c300000023000000c70000000400
      else
        if x & 0x20 == 0 then
          if x & 0x10 == 0
          then 0x0000840000002f000000e300000029000000b3000000d60000003b00000052000000a00000005a0000006e0000001b0000001a0000002c000000830000000900
          else 0x0000cf000000580000004c0000004a00000039000000be000000cb0000006a0000005b000000b1000000fc00000020000000ed00000000000000d10000005300
        else
          if x & 0x10 == 0
          then 0x0000a80000009f0000003c000000500000007f00000002000000f90000004500000085000000330000004d00000043000000fb000000aa000000ef000000d000
          else 0x0000d2000000f3000000ff0000001000000021000000da000000b6000000bc000000f5000000380000009d000000920000008f00000040000000a30000005100
    else
      if x & 0x40 == 0 then
        if x & 0x20 == 0 then
          if x & 0x10 == 0
          then 0x000073000000190000005d000000640000003d0000007e000000a7000000c40000001700000044000000970000005f000000ec000000130000000c000000cd00
          else 0x0000db0000000b0000005e000000de00000014000000b8000000ee0000004600000088000000900000002a00000022000000dc0000004f000000810000006000
        else
          if x & 0x10 == 0
          then 0x000079000000e4000000950000009100000062000000ac000000d3000000c20000005c0000002400000006000000490000000a0000003a00000032000000e000
          else 0x000008000000ae0000007a00000065000000ea000000f4000000560000006c000000a90000004e000000d50000008d0000006d00000037000000c8000000e700
      else
        if x & 0x20 == 0 then
          if x & 0x10 == 0
          then 0x00008a0000008b000000bd0000004b0000001f00000074000000dd000000e8000000c6000000b4000000a60000001c0000002e0000002500000078000000ba00
          else 0x00009e0000001d000000c100000086000000b90000005700000035000000610000000e000000f6000000030000004800000066000000b50000003e0000007000
        else
          if x & 0x10 == 0
          then 0x0000df0000002800000055000000ce000000e9000000870000001e0000009b000000940000008e000000d9000000690000001100000098000000f8000000e100
          else 0x000016000000bb00000054000000b00000000f0000002d00000099000000410000006800000042000000e6000000bf0000000d00000089000000a10000008c00
  }

  function FlRow2(x: bv8): bv512 {
    if x & 0x80 == 0 then
      if x & 0x40 == 0 then
        if x & 0x20 == 0 then
          if x & 0x10 == 0
          then 0x0076000000ab000000d7000000fe0000002b000000670000000100000030000000c50000006f0000006b000000f20000007b000000770000007c000000630000
          else 0x00c000000072000000a40000009c000000af000000a2000000d4000000ad000000f00000004700000059000000fa0000007d000000c900000082000000ca0000
        else
          if x & 0x10 == 0
          then 0x001500000031000000d800000071000000f1000000e5000000a500000034000000cc000000f70000003f000000360000002600000093000000fd000000b70000
          else 0x0075000000b200000027000000eb000000e20000008000000012000000070000009a000000050000009600000018000000c300000023000000c7000000040000
      else
        if x & 0x20 == 0 then
          if x & 0x10 == 0
          then 0x00840000002f000000e300000029000000b3000000d60000003b00000052000000a00000005a0000006e0000001b0000001a0000002c00000083000000090000
          else 0x00cf000000580000004c0000004a00000039000000be000000cb0000006a0000005b000000b1000000fc00000020000000ed00000000000000d1000000530000
        else
          if x & 0x10 == 0
          then 0x00a80000009f0000003c000000500000007f00000002000000f90000004500000085000000330000004d00000043000000fb000000aa000000ef000000d00000
          else 0x00d2000000f3000000ff0000001000000021000000da000000b6000000bc000000f5000000380000009d000000920000008f00000040000000a3000000510000
    else
      if x & 0x40 == 0 then
        if x & 0x20 == 0 then
          if x & 0x10 == 0
          then 0x0073000000190000005d000000640000003d0000007e000000a7000000c40000001700000044000000970000005f000000ec000000130000000c000000cd0000
          else 0x00db0000000b0000005e000000de00000014000000b8000000ee0000004600000088000000900000002a00000022000000dc0000004f00000081000000600000
        else
          if x & 0x10 == 0
          then 0x0079000000e4000000950000009100000062000000ac000000d3000000c20000005c0000002400000006000000490000000a0000003a00000032000000e00000
          else 0x0008000000ae0000007a00000065000000ea000000f4000000560000006c000000a90000004e000000d50000008d0000006d00000037000000c8000000e70000
      else
        if x & 0x20 == 0 then
          if x & 0x10 == 0
          then 0x008a0000008b000000bd0000004b0000001f00000074000000dd000000e8000000c6000000b4000000a60000001c0000002e0000002500000078000000ba0000
          else 0x009e0000001d000000c100000086000000b90000005700000035000000610000000e000000f6000000030000004800000066000000b50000003e000000700000
        else
          if x & 0x10 == 0
          then 0x00df0000002800000055000000ce000000e9000000870000001e0000009b000000940000008e000000d9000000690000001100000098000000f8000000e10000
          else 0x0016000000bb00000054000000b00000000f0000002d00000099000000410000006800000042000000e6000000bf0000000d00000089000000a10000008c0000
  }

  function FlRow3(x: bv8): bv512 {
    if x & 0x80 == 0 then
      if x & 0x40 == 0 then
        if x & 0x20 == 0 then
          if x & 0x10 == 0
          then 0x76000000ab000000d7000000fe0000002b000000670000000100000030000000c50000006f0000006b000000f20000007b000000770000007c00000063000000
          else 0xc000000072000000a40000009c000000af000000a2000000d4000000ad000000f00000004700000059000000fa0000007d000000c900000082000000ca000000
        else
          if x & 0x10 == 0
          then 0x1500000031000000d800000071000000f1000000e5000000a500000034000000cc000000f70000003f000000360000002600000093000000fd000000b7000000
          else 0x75000000b200000027000000eb000000e20000008000000012000000070000009a000000050000009600000018000000c300000023000000c700000004000000
      else
        if x & 0x20 == 0 then
          if x & 0x10 == 0
          then 0x840000002f000000e300000029000000b3000000d60000003b00000052000000a00000005a0000006e0000001b0000001a0000002c0000008300000009000000
          else 0xcf000000580000004c0000004a00000039000000be000000cb0000006a0000005b000000b1000000fc00000020000000ed00000000000000d100000053000000
        else
          if x & 0x10 == 0
          then 0xa80000009f0000003c000000500000007f00000002000000f90000004500000085000000330000004d00000043000000fb000000aa000000ef000000d0000000
          else 0xd2000000f3000000ff0000001000000021000000da000000b6000000bc000000f5000000380000009d000000920000008f00000040000000a300000051000000
    else
      if x & 0x40 == 0 then
        if x & 0x20 == 0 then
          if x & 0x10 == 0
          then 0x73000000190000005d000000640000003d0000007e000000a7000000c40000001700000044000000970000005f000000ec000000130000000c000000cd000000
          else 0xdb0000000b0000005e000000de00000014000000b8000000ee0000004600000088000000900000002a00000022000000dc0000004f0000008100000060000000
        else
          if x & 0x10 == 0
          then 0x79000000e4000000950000009100000062000000ac000000d3000000c20000005c0000002400000006000000490000000a0000003a00000032000000e0000000
          else 0x08000000ae0000007a00000065000000ea000000f4000000560000006c000000a90000004e000000d50000008d0000006d00000037000000c8000000e7000000
      else
        if x & 0x20 == 0 then
          if x & 0x10 == 0
          then 0x8a0000008b000000bd0000004b0000001f00000074000000dd000000e8000000c6000000b4000000a60000001c0000002e0000002500000078000000ba000000
          else 0x9e0000001d000000c100000086000000b90000005700000035000000610000000e000000f6000000030000004800000066000000b50000003e00000070000000
        else
          if x & 0x10 == 0
          then 0xdf0000002800000055000000ce000000e9000000870000001e0000009b000000940000008e000000d9000000690000001100000098000000f8000000e1000000
          else 0x16000000bb00000054000000b00000000f0000002d00000099000000410000006800000042000000e6000000bf0000000d00000089000000a10000008c000000
  }

  function ItRow0(x: bv8): bv512 {
    if x & 0x80 == 0 then
      if x & 0x40 == 0 then
        if x & 0x20 == 0 then
          if x & 0x10 == 0
          then 0x8fa362b580443526d7cb2ac5fcd7e54f254c02f59176cc88f66d76ad55fa30209303e34bab58faacf1459d1fcb6bab3b965e273ac3a4171a5365417e50a7f451
          else 0x44c8c98e2969e049d32174582d83bed4da595295eb7a6dbf959c9215e75f8f03c6f9d36ba397468d12f04c8102752fc3e1c0fe5d980eea45671bba25495ab1de
        else
          if x & 0x10 == 0
          then 0x942b08f91ca081fe84ae6bbbe07764b1457f53626033519782311ae5184adf63b43ace7d66ac20c917ad88f0b64fe1bedd71b9276b3e589978798ef46a89c275
          else 0x5c8216edba6a0302b2a5bf23f2872830a50837d39a7bc58603c2b52f0728ebb22aab5566578f1fe3e2024b7223d373abb7f87b52876cde9419fd458f58684870
      else
        if x & 0x20 == 0 then
          if x & 0x10 == 0
          then 0x51106ebd069f715eaaef604039ec830b75ebf6a432e18a05a055f3a29d532e348afea6c41f6234d1d5be0506cdf4da65a1e2694ef0f207f392b479a72b1ccf8a
          else 0xdbeec879385b19e7888b8907bd42e8b0779ed967cc43408997e9bdd624fb9819ff1550606fd40604055dc471b58d549146bde64dae053edd3d06dd96f98a213e
        else
          if x & 0x10 == 0
          then 0x3a2e3624d1545b9b21a65c6864d90f0a27392d361ed5ae3d5638850ffbff0efd4e725a6cac70111e48ed2b328386800900000000c91e84f8e90f427c470a7ca1
          else 0xc8a91e14b9a8b62dadc78bf20b0d090e1d171b1243e0223ce52aa0c00aba93e2161a121c694b775aa220dc614fc5c0809e919b1bd296eeb40fe75793b1670a0c
    else
      if x & 0x40 == 0 then
        if x & 0x20 == 0 then
          if x & 0x10 == 0
          then 0x2011c6844022971310856342cadc31d763f1e4b868fcedb6dcc623cb7629438b347efb5bc53b6644bcf5725c9f2601f7fd607fa3bbdd99ee4c0775af8519f157
          else 0xef903322d82c7d561a3ff0a0c48cfca82264e947fa48941199b970a96c16b32bd0e3c177ec52860df330b2dc4b2f9e1d6da129c71132f9aef83dbbd27d244a85
        else
          if x & 0x10 == 0
          then 0xf5afc3825ef7392ee8b8d890c2138df662467e549bcc5f6a0d927850e49d3a2ca4bfad3f268eb7da28de7aa5cf81f5a6360bd498fea2ca8cc1d138d9c74e4987
          else 0xe6e815ef08cfbc217ee6ffaa656e95e6a89a4f8301b79aecf418596e097826cd7bbb3bdb6e639ce8a77d18103b99acc8b31225cfa92dd56f7c93d069be805d9f
      else
        if x & 0x20 == 0 then
          if x & 0x10 == 0
          then 0x2ff691170e50cd7ff7daec414a9804f115d8a733b0d090e0a6ca82fc37bc4e74c066a2353094a5c631233f2aafb2a431d67cb029d4099feace366f4ad99be7ba
          else 0x1347d66d335610e952d2db925a1d67b32e410bfb737487fa5d358c0104ea5e9d7f516546b81f2cc11b886a4ce3b5d19edf0496e4544daacc4db0ef438dd64d76
        else
          if x & 0x10 == 0
          then 0x86db4478146f3ddf5baafd5feacdf753bf37c77379ce14183f73f25559dfd29c3cb1477aede51ce135c961b7ee27a9ce893c13eb8e14f8597a0ca1378c61d79a
          else 0x4257b8d0745c6c4870b632d56184cb7b90c156649ce4b4d8deb30c087101a83941950dff8b493c280c25e2bc72c31d165f40a3c22c3424383ec468b981f3afca
  }

  function ItRow1(x: bv8): bv512 {
    if x & 0x80 == 0 then
      if x & 0x40 == 0 then
        if x & 0x20 == 0 then
          if x & 0x10 == 0
          then 0xa362b58f44352680cb2ac5d7d7e54ffc4c02f52576cc88916d76adf6fa30205503e34b9358faacab459d1ff16bab3bcb5e273a96a4171ac365417e53a7f45150
          else 0xc8c98e4469e04929217458d383bed42d595295da7a6dbfeb9c9215955f8f03e7f9d36bc697468da3f04c8112752fc302c0fe5de10eea45981bba25675ab1de49
        else
          if x & 0x10 == 0
          then 0x2b08f994a081fe1cae6bbb847764b1e07f53624533519760311ae5824adf63183ace7db4ac20c966ad88f0174fe1beb671b927dd3e58996b798ef47889c2756a
          else 0x8216ed5c6a0302baa5bf23b2872830f20837d3a57bc5869ac2b52f0328ebb207ab55662a8f1fe357024b72e2d373ab23f87b52b76cde9487fd458f1968487058
      else
        if x & 0x20 == 0 then
          if x & 0x10 == 0
          then 0x106ebd519f715e06ef6040aaec830b39ebf6a475e18a053255f3a2a0532e349dfea6c48a6234d11fbe0506d5f4da65cde2694ea1f207f3f0b479a7921ccf8a2b
          else 0xeec879db5b19e7388b89078842e8b0bd9ed96777434089cce9bdd697fb981924155060ffd406046f5dc471058d5491b5bde64d46053eddae06dd963d8a213ef9
        else
          if x & 0x10 == 0
          then 0x2e36243a545b9bd1a65c6821d90f0a64392d3627d5ae3d1e38850f56ff0efdfb725a6c4e70111eaced2b324886800983000000001e84f8c90f427ce90a7ca147
          else 0xa91e14c8a8b62db9c78bf2ad0d090e0b171b121de0223c432aa0c0e5ba93e20a1a121c164b775a6920dc61a2c5c0804f919b1b9e96eeb4d2e757930f670a0cb1
    else
      if x & 0x40 == 0 then
        if x & 0x20 == 0 then
          if x & 0x10 == 0
          then 0x11c684202297134085634210dc31d7caf1e4b863fcedb668c623cbdc29438b767efb5b343b6644c5f5725cbc2601f79f607fa3fddd99eebb0775af4c19f15785
          else 0x903322ef2c7d56d83ff0a01a8cfca8c464e94722489411fab970a99916b32b6ce3c177d052860dec30b2dcf32f9e1d4ba129c76d32f9ae113dbbd2f8244a857d
        else
          if x & 0x10 == 0
          then 0xafc382f5f7392e5eb8d890e8138df6c2467e5462cc5f6a9b9278500d9d3a2ce4bfad3fa48eb7da26de7aa52881f5a6cf0bd49836a2ca8cfed138d9c14e4987c7
          else 0xe815efe6cfbc2108e6ffaa7e6e95e6659a4f83a8b79aec0118596ef47826cd09bb3bdb7b639ce86e7d1810a799acc83b1225cfb32dd56fa993d0697c805d9fbe
      else
        if x & 0x20 == 0 then
          if x & 0x10 == 0
          then 0xf691172f50cd7f0edaec41f79804f14ad8a73315d090e0b0ca82fca6bc4e743766a235c094a5c630233f2a31b2a431af7cb029d6099fead4366f4ace9be7bad9
          else 0x47d66d135610e933d2db92521d67b35a410bfb2e7487fa73358c015dea5e9d045165467f1f2cc1b8886a4c1bb5d19ee30496e4df4daacc54b0ef434dd64d768d
        else
          if x & 0x10 == 0
          then 0xdb4478866f3ddf14aafd5f5bcdf753ea37c773bfce14187973f2553fdfd29c59b1477a3ce51ce1edc961b73527a9ceee3c13eb8914f8598e0ca1377a61d79a8c
          else 0x57b8d0425c6c4874b632d57084cb7b61c1566490e4b4d89cb30c08de01a83971950dff41493c288b25e2bc0cc31d167240a3c25f3424382cc468b93ef3afca81
  }

  function ItRow2(x: bv8): bv512 {
    if x & 0x80 == 0 then
      if x & 0x40 == 0 then
        if x & 0x20 == 0 then
          if x & 0x10 == 0
          then 0x62b58fa3352680442ac5d7cbe54ffcd702f5254ccc88917676adf66d302055fae34b9303faacab589d1ff145ab3bcb6b273a965e171ac3a4417e5365f45150a7
          else 0xc98e44c8e04929697458d321bed42d835295da596dbfeb7a9215959c8f03e75fd36bc6f9468da3974c8112f02fc30275fe5de1c0ea45980eba25671bb1de495a
        else
          if x & 0x10 == 0
          then 0x08f9942b81fe1ca06bbb84ae64b1e0775362457f519760331ae58231df63184ace7db43a20c966ac88f017ade1beb64fb927dd7158996b3e8ef47879c2756a89
          else 0x16ed5c820302ba6abf23b2a52830f28737d3a508c5869a7bb52f03c2ebb2072855662aab1fe3578f4b72e20273ab23d37b52b7f8de94876c458f19fd48705868
      else
        if x & 0x20 == 0 then
          if x & 0x10 == 0
          then 0x6ebd5110715e069f6040aaef830b39ecf6a475eb8a0532e1f3a2a0552e349d53a6c48afe34d11f620506d5beda65cdf4694ea1e207f3f0f279a792b4cf8a2b1c
          else 0xc879dbee19e7385b8907888be8b0bd42d967779e4089cc43bdd697e9981924fb5060ff1506046fd4c471055d5491b58de64d46bd3eddae05dd963d06213ef98a
        else
          if x & 0x10 == 0
          then 0x36243a2e5b9bd1545c6821a60f0a64d92d362739ae3d1ed5850f56380efdfbff5a6c4e72111eac702b3248ed800983860000000084f8c91e427ce90f7ca1470a
          else 0x1e14c8a9b62db9a88bf2adc7090e0b0d1b121d17223c43e0a0c0e52a93e20aba121c161a775a694bdc61a220c0804fc59b1b9e91eeb4d29657930fe70a0cb167
    else
      if x & 0x40 == 0 then
        if x & 0x20 == 0 then
          if x & 0x10 == 0
          then 0xc6842011971340226342108531d7cadce4b863f1edb668fc23cbdcc6438b7629fb5b347e6644c53b725cbcf501f79f267fa3fd6099eebbdd75af4c07f1578519
          else 0x3322ef907d56d82cf0a01a3ffca8c48ce94722649411fa4870a999b9b32b6c16c177d0e3860dec52b2dcf3309e1d4b2f29c76da1f9ae1132bbd2f83d4a857d24
        else
          if x & 0x10 == 0
          then 0xc382f5af392e5ef7d890e8b88df6c2137e5462465f6a9bcc78500d923a2ce49dad3fa4bfb7da268e7aa528def5a6cf81d498360bca8cfea238d9c1d14987c74e
          else 0x15efe6e8bc2108cfffaa7ee695e6656e4f83a89a9aec01b7596ef41826cd09783bdb7bbb9ce86e631810a77dacc83b9925cfb312d56fa92dd0697c935d9fbe80
      else
        if x & 0x20 == 0 then
          if x & 0x10 == 0
          then 0x91172ff6cd7f0e50ec41f7da04f14a98a73315d890e0b0d082fca6ca4e7437bca235c066a5c630943f2a3123a431afb2b029d67c9fead4096f4ace36e7bad99b
          else 0xd66d134710e93356db9252d267b35a1d0bfb2e4187fa73748c015d355e9d04ea65467f512cc1b81f6a4c1b88d19ee3b596e4df04aacc544def434db04d768dd6
        else
          if x & 0x10 == 0
          then 0x447886db3ddf146ffd5f5baaf753eacdc773bf37141879cef2553f73d29c59df477a3cb11ce1ede561b735c9a9ceee2713eb893cf8598e14a1377a0cd79a8c61
          else 0xb8d042576c48745c32d570b6cb7b6184566490c1b4d89ce40c08deb3a83971010dff41953c288b49e2bc0c251d1672c3a3c25f4024382c3468b93ec4afca81f3
  }

  function ItRow3(x: bv8): bv512 {
    if x & 0x80 == 0 then
      if x & 0x40 == 0 then
        if x & 0x20 == 0 then
          if x & 0x10 == 0
          then 0xb58fa36226804435c5d7cb2a4ffcd7e5f5254c02889176ccadf66d762055fa304b9303e3acab58fa1ff1459d3bcb6bab3a965e271ac3a4177e5365415150a7f4
          else 0x8e44c8c9492969e058d32174d42d83be95da5952bfeb7a6d15959c9203e75f8f6bc6f9d38da397468112f04cc302752f5de1c0fe45980eea25671bbade495ab1
        else
          if x & 0x10 == 0
          then 0xf9942b08fe1ca081bb84ae6bb1e0776462457f5397603351e582311a63184adf7db43acec966ac20f017ad88beb64fe127dd71b9996b3e58f478798e756a89c2
          else 0xed5c821602ba6a0323b2a5bf30f28728d3a50837869a7bc52f03c2b5b20728eb662aab55e3578f1f72e2024bab23d37352b7f87b94876cde8f19fd4570586848
      else
        if x & 0x20 == 0 then
          if x & 0x10 == 0
          then 0xbd51106e5e069f7140aaef600b39ec83a475ebf60532e18aa2a055f3349d532ec48afea6d11f623406d5be0565cdf4da4ea1e269f3f0f207a792b4798a2b1ccf
          else 0x79dbeec8e7385b1907888b89b0bd42e867779ed989cc4340d697e9bd1924fb9860ff1550046fd40671055dc491b58d544d46bde6ddae053e963d06dd3ef98a21
        else
          if x & 0x10 == 0
          then 0x243a2e369bd1545b6821a65c0a64d90f3627392d3d1ed5ae0f563885fdfbff0e6c4e725a1eac70113248ed2b0983868000000000f8c91e847ce90f42a1470a7c
          else 0x14c8a91e2db9a8b6f2adc78b0e0b0d09121d171b3c43e022c0e52aa0e20aba931c161a125a694b7761a220dc804fc5c01b9e919bb4d296ee930fe7570cb1670a
    else
      if x & 0x40 == 0 then
        if x & 0x20 == 0 then
          if x & 0x10 == 0
          then 0x842011c61340229742108563d7cadc31b863f1e4b668fcedcbdcc6238b7629435b347efb44c53b665cbcf572f79f2601a3fd607feebbdd99af4c0775578519f1
          else 0x22ef903356d82c7da01a3ff0a8c48cfc472264e911fa4894a999b9702b6c16b377d0e3c10dec5286dcf330b21d4b2f9ec76da129ae1132f9d2f83dbb857d244a
        else
          if x & 0x10 == 0
          then 0x82f5afc32e5ef73990e8b8d8f6c2138d5462467e6a9bcc5f500d92782ce49d3a3fa4bfadda268eb7a528de7aa6cf81f598360bd48cfea2cad9c1d13887c74e49
          else 0xefe6e8152108cfbcaa7ee6ffe6656e9583a89a4fec01b79a6ef41859cd097826db7bbb3be86e639c10a77d18c83b99accfb312256fa92dd5697c93d09fbe805d
      else
        if x & 0x20 == 0 then
          if x & 0x10 == 0
          then 0x172ff6917f0e50cd41f7daecf14a98043315d8a7e0b0d090fca6ca827437bc4e35c066a2c63094a52a31233f31afb2a429d67cb0ead4099f4ace366fbad99be7
          else 0x6d1347d6e93356109252d2dbb35a1d67fb2e410bfa737487015d358c9d04ea5e467f5165c1b81f2c4c1b886a9ee3b5d1e4df0496cc544daa434db0ef768dd64d
        else
          if x & 0x10 == 0
          then 0x7886db44df146f3d5f5baafd53eacdf773bf37c71879ce14553f73f29c59dfd27a3cb147e1ede51cb735c961ceee27a9eb893c13598e14f8377a0ca19a8c61d7
          else 0xd04257b848745c6cd570b6327b6184cb6490c156d89ce4b408deb30c397101a8ff41950d288b493cbc0c25e21672c31dc25f40a3382c3424b93ec468ca81f3af
  }

  function IlRow0(x: bv8): bv512 {
    if x & 0x80 == 0 then
      if x & 0x40 == 0 then
        if x & 0x20 == 0 then
          if x & 0x10 == 0
          then 0x000000fb000000d7000000f3000000810000009e000000a300000040000000bf00000038000000a50000003600000030000000d50000006a0000000900000052
          else 0x000000cb000000e9000000de000000c400000044000000430000008e0000003400000087000000ff0000002f0000009b0000008200000039000000e30000007c
        else
          if x & 0x10 == 0
          then 0x0000004e000000c3000000fa000000420000000b000000950000004c000000ee0000003d00000023000000c2000000a600000032000000940000007b00000054
          else 0x00000025000000d10000008b0000006d00000049000000a20000005b00000076000000b200000024000000d90000002800000066000000a10000002e00000008
      else
        if x & 0x20 == 0 then
          if x & 0x10 == 0
          then 0x00000092000000b6000000650000005d000000cc0000005c000000a4000000d40000001600000098000000680000008600000064000000f6000000f800000072
          else 0x000000840000009d0000008d000000a70000005700000046000000150000005e000000da000000b9000000ed000000fd0000005000000048000000700000006c
        else
          if x & 0x10 == 0
          then 0x0000000600000045000000b3000000b80000000500000058000000e4000000f70000000a000000d3000000bc0000008c00000000000000ab000000d800000090
          else 0x0000006b0000008a000000130000000100000003000000bd000000af000000c1000000020000000f0000003f000000ca0000008f0000001e0000002c000000d0
    else
      if x & 0x40 == 0 then
        if x & 0x20 == 0 then
          if x & 0x10 == 0
          then 0x00000073000000e6000000b4000000f0000000ce000000cf000000f200000097000000ea000000dc000000670000004f0000004100000011000000910000003a
          else 0x0000006e000000df000000750000001c000000e800000037000000f9000000e20000008500000035000000ad000000e70000002200000074000000ac00000096
        else
          if x & 0x10 == 0
          then 0x0000001b000000be00000018000000aa0000000e00000062000000b70000006f00000089000000c5000000290000001d000000710000001a000000f100000047
          else 0x000000f40000005a000000cd00000078000000fe000000c0000000db0000009a0000002000000079000000d2000000c60000004b0000003e00000056000000fc
      else
        if x & 0x20 == 0 then
          if x & 0x10 == 0
          then 0x0000005f000000ec0000008000000027000000590000001000000012000000b100000031000000c7000000070000008800000033000000a8000000dd0000001f
          else 0x000000ef0000009c000000c9000000930000009f0000007a000000e50000002d0000000d0000004a000000b500000019000000a90000007f0000005100000060
        else
          if x & 0x10 == 0
          then 0x000000610000009900000053000000830000003c000000bb000000eb000000c8000000b0000000f50000002a000000ae0000004d0000003b000000e0000000a0
          else 0x0000007d0000000c0000002100000055000000630000001400000069000000e100000026000000d600000077000000ba0000007e000000040000002b00000017
  }

  function IlRow1(x: bv8): bv512 {
    if x & 0x80 == 0 then
      if x & 0x40 == 0 then
        if x & 0x20 == 0 then
          if x & 0x10 == 0
          then 0x0000fb000000d7000000f3000000810000009e000000a300000040000000bf00000038000000a50000003600000030000000d50000006a000000090000005200
          else 0x0000cb000000e9000000de000000c400000044000000430000008e0000003400000087000000ff0000002f0000009b0000008200000039000000e30000007c00
        else
          if x & 0x10 == 0
          then 0x00004e000000c3000000fa000000420000000b000000950000004c000000ee0000003d00000023000000c2000000a600000032000000940000007b0000005400
          else 0x000025000000d10000008b0000006d00000049000000a20000005b00000076000000b200000024000000d90000002800000066000000a10000002e0000000800
      else
        if x & 0x20 == 0 then
          if x & 0x10 == 0
          then 0x000092000000b6000000650000005d000000cc0000005c000000a4000000d40000001600000098000000680000008600000064000000f6000000f80000007200
          else 0x0000840000009d0000008d000000a70000005700000046000000150000005e000000da000000b9000000ed000000fd0000005000000048000000700000006c00
        else
          if x & 0x10 == 0
          then 0x00000600000045000000b3000000b80000000500000058000000e4000000f70000000a000000d3000000bc0000008c00000000000000ab000000d80000009000
          else 0x00006b0000008a000000130000000100000003000000bd000000af000000c1000000020000000f0000003f000000ca0000008f0000001e0000002c000000d000
    else
      if x & 0x40 == 0 then
        if x & 0x20 == 0 then
          if x & 0x10 == 0
          then 0x000073000000e6000000b4000000f0000000ce000000cf000000f200000097000000ea000000dc000000670000004f0000004100000011000000910000003a00
          else 0x00006e000000df000000750000001c000000e800000037000000f9000000e20000008500000035000000ad000000e70000002200000074000000ac0000009600
        else
          if x & 0x10 == 0
          then 0x00001b000000be00000018000000aa0000000e00000062000000b70000006f00000089000000c5000000290000001d000000710000001a000000f10000004700
          else 0x0000f40000005a000000cd00000078000000fe000000c0000000db0000009a0000002000000079000000d2000000c60000004b0000003e00000056000000fc00
      else
        if x & 0x20 == 0 then
          if x & 0x10 == 0
          then 0x00005f000000ec0000008000000027000000590000001000000012000000b100000031000000c7000000070000008800000033000000a8000000dd0000001f00
          else 0x0000ef0000009c000000c9000000930000009f0000007a000000e50000002d0000000d0000004a000000b500000019000000a90000007f000000510000006000
        else
          if x & 0x10 == 0
          then 0x0000610000009900000053000000830000003c000000bb000000eb000000c8000000b0000000f50000002a000000ae0000004d0000003b000000e0000000a000
          else 0x00007d0000000c0000002100000055000000630000001400000069000000e100000026000000d600000077000000ba0000007e000000040000002b0000001700
  }

  function IlRow2(x: bv8): bv512 {
    if x & 0x80 == 0 then
      if x & 0x40 == 0 then
        if x & 0x20 == 0 then
          if x & 0x10 == 0
          then 0x00fb000000d7000000f3000000810000009e000000a300000040000000bf00000038000000a50000003600000030000000d50000006a00000009000000520000
          else 0x00cb000000e9000000de000000c400000044000000430000008e0000003400000087000000ff0000002f0000009b0000008200000039000000e30000007c0000
        else
          if x & 0x10 == 0
          then 0x004e000000c3000000fa000000420000000b000000950000004c000000ee0000003d00000023000000c2000000a600000032000000940000007b000000540000
          else 0x0025000000d10000008b0000006d00000049000000a20000005b00000076000000b200000024000000d90000002800000066000000a10000002e000000080000
      else
        if x & 0x20 == 0 then
          if x & 0x10 == 0
          then 0x0092000000b6000000650000005d000000cc0000005c000000a4000000d40000001600000098000000680000008600000064000000f6000000f8000000720000
          else 0x00840000009d0000008d000000a70000005700000046000000150000005e000000da000000b9000000ed000000fd0000005000000048000000700000006c0000
        else
          if x & 0x10 == 0
          then 0x000600000045000000b3000000b80000000500000058000000e4000000f70000000a000000d3000000bc0000008c00000000000000ab000000d8000000900000
          else 0x006b0000008a000000130000000100000003000000bd000000af000000c1000000020000000f0000003f000000ca0000008f0000001e0000002c000000d00000
    else
      if x & 0x40 == 0 then
        if x & 0x20 == 0 then
          if x & 0x10 == 0
          then 0x0073000000e6000000b4000000f0000000ce000000cf000000f200000097000000ea000000dc000000670000004f0000004100000011000000910000003a0000
          else 0x006e000000df000000750000001c000000e800000037000000f9000000e20000008500000035000000ad000000e70000002200000074000000ac000000960000
        else
          if x & 0x10 == 0
          then 0x001b000000be00000018000000aa0000000e00000062000000b70000006f00000089000000c5000000290000001d000000710000001a000000f1000000470000
          else 0x00f40000005a000000cd00000078000000fe000000c0000000db0000009a0000002000000079000000d2000000c60000004b0000003e00000056000000fc0000
      else
        if x & 0x20 == 0 then
          if x & 0x10 == 0
          then 0x005f000000ec0000008000000027000000590000001000000012000000b100000031000000c7000000070000008800000033000000a8000000dd0000001f0000
          else 0x00ef0000009c000000c9000000930000009f0000007a000000e50000002d0000000d0000004a000000b500000019000000a90000007f00000051000000600000
        else
          if x & 0x10 == 0
          then 0x00610000009900000053000000830000003c000000bb000000eb000000c8000000b0000000f50000002a000000ae0000004d0000003b000000e0000000a00000
          else 0x007d0000000c0000002100000055000000630000001400000069000000e100000026000000d600000077000000ba0000007e000000040000002b000000170000
  }

  function IlRow3(x: bv8): bv512 {
    if x & 0x80 == 0 then
      if x & 0x40 == 0 then
        if x & 0x20 == 0 then
          if x & 0x10 == 0
          then 0xfb000000d7000000f3000000810000009e000000a300000040000000bf00000038000000a50000003600000030000000d50000006a0000000900000052000000
          else 0xcb000000e9000000de000000c400000044000000430000008e0000003400000087000000ff0000002f0000009b0000008200000039000000e30000007c000000
        else
          if x & 0x10 == 0
          then 0x4e000000c3000000fa000000420000000b000000950000004c000000ee0000003d00000023000000c2000000a600000032000000940000007b00000054000000
          else 0x25000000d10000008b0000006d00000049000000a20000005b00000076000000b200000024000000d90000002800000066000000a10000002e00000008000000
      else
        if x & 0x20 == 0 then
          if x & 0x10 == 0
          then 0x92000000b6000000650000005d000000cc0000005c000000a4000000d40000001600000098000000680000008600000064000000f6000000f800000072000000
          else 0x840000009d0000008d000000a70000005700000046000000150000005e000000da000000b9000000ed000000fd0000005000000048000000700000006c000000
        else
          if x & 0x10 == 0
          then 0x0600000045000000b3000000b80000000500000058000000e4000000f70000000a000000d3000000bc0000008c00000000000000ab000000d800000090000000
          else 0x6b0000008a000000130000000100000003000000bd000000af000000c1000000020000000f0000003f000000ca0000008f0000001e0000002c000000d0000000
    else
      if x & 0x40 == 0 then
        if x & 0x20 == 0 then
          if x & 0x10 == 0
          then 0x73000000e6000000b4000000f0000000ce000000cf000000f200000097000000ea000000dc000000670000004f0000004100000011000000910000003a000000
          else 0x6e000000df000000750000001c000000e800000037000000f9000000e20000008500000035000000ad000000e70000002200000074000000ac00000096000000
        else
          if x & 0x10 == 0
          then 0x1b000000be00000018000000aa0000000e00000062000000b70000006f00000089000000c5000000290000001d000000710000001a000000f100000047000000
          else 0xf40000005a000000cd00000078000000fe000000c0000000db0000009a0000002000000079000000d2000000c60000004b0000003e00000056000000fc000000
      else
        if x & 0x20 == 0 then
          if x & 0x10 == 0
          then 0x5f000000ec0000008000000027000000590000001000000012000000b100000031000000c7000000070000008800000033000000a8000000dd0000001f000000
          else 0xef0000009c000000c9000000930000009f0000007a000000e50000002d0000000d0000004a000000b500000019000000a90000007f0000005100000060000000
        else
          if x & 0x10 == 0
          then 0x610000009900000053000000830000003c000000bb000000eb000000c8000000b0000000f50000002a000000ae0000004d0000003b000000e0000000a0000000
          else 0x7d0000000c0000002100000055000000630000001400000069000000e100000026000000d600000077000000ba0000007e000000040000002b00000017000000
  }

  // ---------------------------------------------------------------- what the tables hold

  /** The other quarters of the encryption table are the first one with its words rotated. */
  lemma FtTurns(x: bv8)
    ensures Ft1(x) == Ror24(Ft0(x)) && Ft2(x) == Ror16(Ft0(x)) && Ft3(x) == Ror8(Ft0(x))
  {
    hide Ft0, Ft1, Ft2, Ft3, Ror8, Ror16, Ror24;
    FtTurn1(x);
    FtTurn2(x);
    FtTurn3(x);
  }

  lemma FtTurn1(x: bv8)
    ensures Ft1(x) == Ror24(Ft0(x))
  {
  }

  lemma FtTurn2(x: bv8)
    ensures Ft2(x) == Ror16(Ft0(x))
  {
  }

  lemma FtTurn3(x: bv8)
    ensures Ft3(x) == Ror8(Ft0(x))
  {
  }

  /** And so are those of the decryption table. */
  lemma ItTurns(x: bv8)
    ensures It1(x) == Ror24(It0(x)) && It2(x) == Ror16(It0(x)) && It3(x) == Ror8(It0(x))
  {
    hide It0, It1, It2, It3, Ror8, Ror16, Ror24;
    ItTurn1(x);
    ItTurn2(x);
    ItTurn3(x);
  }

  lemma ItTurn1(x: bv8)
    ensures It1(x) == Ror24(It0(x))
  {
  }

  lemma ItTurn2(x: bv8)
    ensures It2(x) == Ror16(It0(x))
  {
  }

  lemma ItTurn3(x: bv8)
    ensures It3(x) == Ror8(It0(x))
  {
  }

  /** The substituted byte, the k-th quarter at byte k. */
  lemma FlPlaces(x: bv8)
    ensures var s := Sbox(x); Fl0(x) == At0(s) && Fl1(x) == At1(s) && Fl2(x) == At2(s) && Fl3(x) == At3(s)
  {
    hide Fl0, Fl1, Fl2, Fl3, Sbox, At0, At1, At2, At3;
    FlPlace0(x);
    FlPlace1(x);
    FlPlace2(x);
    FlPlace3(x);
  }

  lemma FlPlace0(x: bv8)
    ensures Fl0(x) == At0(Sbox(x))
  {
  }

  lemma FlPlace1(x: bv8)
    ensures Fl1(x) == At1(Sbox(x))
  {
  }

  lemma FlPlace2(x: bv8)
    ensures Fl2(x) == At2(Sbox(x))
  {
  }

  lemma FlPlace3(x: bv8)
    ensures Fl3(x) == At3(Sbox(x))
  {
  }

  lemma IlPlaces(x: bv8)
    ensures var s := InvSbox(x); Il0(x) == At0(s) && Il1(x) == At1(s) && Il2(x) == At2(s) && Il3(x) == At3(s)
  {
    hide Il0, Il1, Il2, Il3, InvSbox, At0, At1, At2, At3;
    IlPlace0(x);
    IlPlace1(x);
    IlPlace2(x);
    IlPlace3(x);
  }

  lemma IlPlace0(x: bv8)
    ensures Il0(x) == At0(InvSbox(x))
  {
  }

  lemma IlPlace1(x: bv8)
    ensures Il1(x) == At1(InvSbox(x))
  {
  }

  lemma IlPlace2(x: bv8)
    ensures Il2(x) == At2(InvSbox(x))
  {
  }

  lemma IlPlace3(x: bv8)
    ensures Il3(x) == At3(InvSbox(x))
  {
  }

  /** The column {02, 01, 01, 03} times s. */
  function MixedByte(s: bv8): bv32 { Word(Xt(s), s, s, Mul3(s)) }

  /** The column {0e, 09, 0d, 0b} times s. */
  function InvMixedByte(s: bv8): bv32 { Word(Mul14(s), Mul9(s), Mul13(s), Mul11(s)) }

  /** Every entry of the encryption table is a substituted and mixed byte. */
  lemma FtIsMixed(x: bv8)
    ensures Ft0(x) == MixedByte(Sbox(x))
  {
  }

  /** Every entry of the decryption table is an inversely substituted and mixed byte. */
  lemma ItIsMixed(x: bv8)
    ensures It0(x) == InvMixedByte(InvSbox(x))
  {
  }

  /** The two substitutions undo each other. */
  lemma InvSboxUndoes(x: bv8)
    ensures InvSbox(Sbox(x)) == x
  {
  }

  lemma SboxUndoes(x: bv8)
    ensures Sbox(InvSbox(x)) == x
  {
  }

  // ---------------------------------------------------------------- where the substitution comes from

  /** Multiplication in the field, section 4.2 of FIPS 197. */
  function FieldMul(a: bv8, b: bv8): bv8 {
    var a1 := Xt(a);
    var a2 := Xt(a1);
    var a3 := Xt(a2);
    var a4 := Xt(a3);
    var a5 := Xt(a4);
    var a6 := Xt(a5);
    var a7 := Xt(a6);
    (if b & 0x01 == 0 then 0 else a) ^ (if b & 0x02 == 0 then 0 else a1)
    ^ (if b & 0x04 == 0 then 0 else a2) ^ (if b & 0x08 == 0 then 0 else a3)
    ^ (if b & 0x10 == 0 then 0 else a4) ^ (if b & 0x20 == 0 then 0 else a5)
    ^ (if b & 0x40 == 0 then 0 else a6) ^ (if b & 0x80 == 0 then 0 else a7)
  }

  predicate IsInverse(x: bv8, y: bv8) { if x == 0 then y == 0 else FieldMul(x, y) == 1 }

  /** The affine transformation of section 5.1.1 of FIPS 197. */
  function Affine(y: bv8): bv8 {
    y ^ ((y << 1) | (y >> 7)) ^ ((y << 2) | (y >> 6)) ^ ((y << 3) | (y >> 5)) ^ ((y << 4) | (y >> 4)) ^ 0x63
  }

  /** An entry of the substitution table is the affine image of a byte exactly if that is the inverse of the index. */
  lemma SboxIsStandard(x: bv8, y: bv8)
    ensures Sbox(x) == Affine(y) <==> IsInverse(x, y)
  {
    hide Sbox, Affine, IsInverse;
    if x & 0xc0 == 0x00 {
      SboxPart0(x, y);
    } else if x & 0xc0 == 0x40 {
      SboxPart1(x, y);
    } else if x & 0xc0 == 0x80 {
      SboxPart2(x, y);
    } else {
      SboxPart3(x, y);
    }
  }

  lemma SboxPart0(x: bv8, y: bv8)
    requires x & 0xc0 == 0x00
    ensures Sbox(x) == Affine(y) <==> IsInverse(x, y)
  {
  }

  lemma SboxPart1(x: bv8, y: bv8)
    requires x & 0xc0 == 0x40
    ensures Sbox(x) == Affine(y) <==> IsInverse(x, y)
  {
  }

  lemma SboxPart2(x: bv8, y: bv8)
    requires x & 0xc0 == 0x80
    ensures Sbox(x) == Affine(y) <==> IsInverse(x, y)
  {
  }

  lemma SboxPart3(x: bv8, y: bv8)
    requires x & 0xc0 == 0xc0
    ensures Sbox(x) == Affine(y) <==> IsInverse(x, y)
  {
  }
}
