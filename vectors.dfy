/**
 * Known-answer check of the ChaCha20 block function: Test Vector #1 of
 * appendix A.1 of RFC 8439 (all-zero key, nonce and block counter). With
 * everything zero, the RFC's layout (32-bit counter, 96-bit nonce) and the
 * layout of libathemecore/arc4random.c (64-bit counter, 64-bit nonce) give
 * the same initial state, so the vector applies to the model as is.
 *
 * The 80 quarter rounds are checked one at a time on concrete states:
 * `Rk` is the state after k double rounds and `Rk_i` the state i quarter
 * rounds into the next one.
 */
module ChaChaVectors {
  import opened Codec
  import opened ChaCha

  /** The initial state: the four constants, then a zero key, counter and nonce. */
  const R0: seq<bv32> :=
    [0x61707865, 0x3320646E, 0x79622D32, 0x6B206574, 0x00000000, 0x00000000, 0x00000000, 0x00000000,
     0x00000000, 0x00000000, 0x00000000, 0x00000000, 0x00000000, 0x00000000, 0x00000000, 0x00000000]

  const R0_1: seq<bv32> :=
    [0xB7877FEB, 0x3320646E, 0x79622D32, 0x6B206574, 0x4A7D5C86, 0x00000000, 0x00000000, 0x00000000,
     0x5A83FD3F, 0x00000000, 0x00000000, 0x00000000, 0xE21E9BCF, 0x00000000, 0x00000000, 0x00000000]

  const R0_2: seq<bv32> :=
    [0xB7877FEB, 0x16526AB4, 0x79622D32, 0x6B206574, 0x4A7D5C86, 0xFAE0EA21, 0x00000000, 0x00000000,
     0x5A83FD3F, 0xA0C7C792, 0x00000000, 0x00000000, 0xE21E9BCF, 0x3C599472, 0x00000000, 0x00000000]

  const R0_3: seq<bv32> :=
    [0xB7877FEB, 0x16526AB4, 0xA0F85005, 0x6B206574, 0x4A7D5C86, 0xFAE0EA21, 0x66E11E68, 0x00000000,
     0x5A83FD3F, 0xA0C7C792, 0xF75BE0EF, 0x00000000, 0xE21E9BCF, 0x3C599472, 0xCA29678D, 0x00000000]

  const R0_4: seq<bv32> :=
    [0xB7877FEB, 0x16526AB4, 0xA0F85005, 0xB1D26BCB, 0x4A7D5C86, 0xFAE0EA21, 0x66E11E68, 0xE3A851A6,
     0x5A83FD3F, 0xA0C7C792, 0xF75BE0EF, 0x0B7556F4, 0xE21E9BCF, 0x3C599472, 0xCA29678D, 0xA600EBD4]

  const R0_5: seq<bv32> :=
    [0xE45FD249, 0x16526AB4, 0xA0F85005, 0xB1D26BCB, 0x4A7D5C86, 0x86BF4098, 0x66E11E68, 0xE3A851A6,
     0x5A83FD3F, 0xA0C7C792, 0x00FA16BC, 0x0B7556F4, 0xE21E9BCF, 0x3C599472, 0xCA29678D, 0x87C62165]

  const R0_6: seq<bv32> :=
    [0xE45FD249, 0x1BB820A6, 0xA0F85005, 0xB1D26BCB, 0x4A7D5C86, 0x86BF4098, 0x460B500A, 0xE3A851A6,
     0x5A83FD3F, 0xA0C7C792, 0x00FA16BC, 0x8A08812A, 0x6BBF8B09, 0x3C599472, 0xCA29678D, 0x87C62165]

  const R0_7: seq<bv32> :=
    [0xE45FD249, 0x1BB820A6, 0xE31A88EA, 0xB1D26BCB, 0x4A7D5C86, 0x86BF4098, 0x460B500A, 0xFA169886,
     0x538DCA0E, 0xA0C7C792, 0x00FA16BC, 0x8A08812A, 0x6BBF8B09, 0xC33013D6, 0xCA29678D, 0x87C62165]

  const R1: seq<bv32> :=
    [0xE45FD249, 0x1BB820A6, 0xE31A88EA, 0xE667A9FE, 0x2A3BF673, 0x86BF4098, 0x460B500A, 0xFA169886,
     0x538DCA0E, 0x0C439641, 0x00FA16BC, 0x8A08812A, 0x6BBF8B09, 0xC33013D6, 0xBB9F9849, 0x87C62165]

  const R1_1: seq<bv32> :=
    [0x9C2FE493, 0x1BB820A6, 0xE31A88EA, 0xE667A9FE, 0x287E635E, 0x86BF4098, 0x460B500A, 0xFA169886,
     0x31C4E711, 0x0C439641, 0x00FA16BC, 0x8A08812A, 0x9A81B7DF, 0xC33013D6, 0xBB9F9849, 0x87C62165]

  const R1_2: seq<bv32> :=
    [0x9C2FE493, 0xEDE870D7, 0xE31A88EA, 0xE667A9FE, 0x287E635E, 0x2643DF1A, 0x460B500A, 0xFA169886,
     0x31C4E711, 0x7F3D8827, 0x00FA16BC, 0x8A08812A, 0x9A81B7DF, 0x0011909F, 0xBB9F9849, 0x87C62165]

  const R1_3: seq<bv32> :=
    [0x9C2FE493, 0xEDE870D7, 0xF8BD996F, 0xE667A9FE, 0x287E635E, 0x2643DF1A, 0x2A5FAAC7, 0xFA169886,
     0x31C4E711, 0x7F3D8827, 0x41C37F2E, 0x8A08812A, 0x9A81B7DF, 0x0011909F, 0x000BD5B8, 0x87C62165]

  const R1_4: seq<bv32> :=
    [0x9C2FE493, 0xEDE870D7, 0xF8BD996F, 0xD7848403, 0x287E635E, 0x2643DF1A, 0x2A5FAAC7, 0x65F2F4D2,
     0x31C4E711, 0x7F3D8827, 0x41C37F2E, 0x53CDA496, 0x9A81B7DF, 0x0011909F, 0x000BD5B8, 0x65E3BBB4]

  const R1_5: seq<bv32> :=
    [0xB20E0DA6, 0xEDE870D7, 0xF8BD996F, 0xD7848403, 0x287E635E, 0x0E8A389F, 0x2A5FAAC7, 0x65F2F4D2,
     0x31C4E711, 0x7F3D8827, 0xD1875D88, 0x53CDA496, 0x9A81B7DF, 0x0011909F, 0x000BD5B8, 0x17AA36CA]

  const R1_6: seq<bv32> :=
    [0xB20E0DA6, 0x21219E43, 0xF8BD996F, 0xD7848403, 0x287E635E, 0x0E8A389F, 0x7919A4B4, 0x65F2F4D2,
     0x31C4E711, 0x7F3D8827, 0xD1875D88, 0x602BB1EC, 0x601C8A8D, 0x0011909F, 0x000BD5B8, 0x17AA36CA]

  const R1_7: seq<bv32> :=
    [0xB20E0DA6, 0x21219E43, 0x79C69196, 0xD7848403, 0x287E635E, 0x0E8A389F, 0x7919A4B4, 0x323F2639,
     0x69727D19, 0x7F3D8827, 0xD1875D88, 0x602BB1EC, 0x601C8A8D, 0x18CF3767, 0x000BD5B8, 0x17AA36CA]

  const R2: seq<bv32> :=
    [0xB20E0DA6, 0x21219E43, 0x79C69196, 0x8EB9D107, 0x28BFA54E, 0x0E8A389F, 0x7919A4B4, 0x323F2639,
     0x69727D19, 0x12E796EC, 0xD1875D88, 0x602BB1EC, 0x601C8A8D, 0x18CF3767, 0x60D10EBC, 0x17AA36CA]

  const R2_1: seq<bv32> :=
    [0x13F7FB89, 0x21219E43, 0x79C69196, 0x8EB9D107, 0x83EC4004, 0x0E8A389F, 0x7919A4B4, 0x323F2639,
     0x302D9015, 0x12E796EC, 0xD1875D88, 0x602BB1EC, 0x8E41582B, 0x18CF3767, 0x60D10EBC, 0x17AA36CA]

  const R2_2: seq<bv32> :=
    [0x13F7FB89, 0x9F18D690, 0x79C69196, 0x8EB9D107, 0x83EC4004, 0x911EB07E, 0x7919A4B4, 0x323F2639,
     0x302D9015, 0x924EC2CE, 0xD1875D88, 0x602BB1EC, 0x8E41582B, 0x9DE1F47E, 0x60D10EBC, 0x17AA36CA]

  const R2_3: seq<bv32> :=
    [0x13F7FB89, 0x9F18D690, 0x37910D80, 0x8EB9D107, 0x83EC4004, 0x911EB07E, 0x56BBFF1B, 0x323F2639,
     0x302D9015, 0x924EC2CE, 0x721DA0C8, 0x602BB1EC, 0x8E41582B, 0x9DE1F47E, 0x679FB10F, 0x17AA36CA]

  const R2_4: seq<bv32> :=
    [0x13F7FB89, 0x9F18D690, 0x37910D80, 0x5BE96878, 0x83EC4004, 0x911EB07E, 0x56BBFF1B, 0xC2E1700F,
     0x302D9015, 0x924EC2CE, 0x721DA0C8, 0x8575B3D8, 0x8E41582B, 0x9DE1F47E, 0x679FB10F, 0x63BF2A9A]

  const R2_5: seq<bv32> :=
    [0x0287A2A1, 0x9F18D690, 0x37910D80, 0x5BE96878, 0x83EC4004, 0x37CCB7A7, 0x56BBFF1B, 0xC2E1700F,
     0x302D9015, 0x924EC2CE, 0x131F6FF5, 0x8575B3D8, 0x8E41582B, 0x9DE1F47E, 0x679FB10F, 0x1A640884]

  const R2_6: seq<bv32> :=
    [0x0287A2A1, 0xD2DC39EF, 0x37910D80, 0x5BE96878, 0x83EC4004, 0x37CCB7A7, 0x1FE6C459, 0xC2E1700F,
     0x302D9015, 0x924EC2CE, 0x131F6FF5, 0x6F38A9CC, 0x5C427A5F, 0x9DE1F47E, 0x679FB10F, 0x1A640884]

  const R2_7: seq<bv32> :=
    [0x0287A2A1, 0xD2DC39EF, 0xF2ECF51E, 0x5BE96878, 0x83EC4004, 0x37CCB7A7, 0x1FE6C459, 0xE5F95617,
     0xD7B18523, 0x924EC2CE, 0x131F6FF5, 0x6F38A9CC, 0x5C427A5F, 0x1D928D7B, 0x679FB10F, 0x1A640884]

  const R3: seq<bv32> :=
    [0x0287A2A1, 0xD2DC39EF, 0xF2ECF51E, 0xC3876AFE, 0x9276B821, 0x37CCB7A7, 0x1FE6C459, 0xE5F95617,
     0xD7B18523, 0xA0952FF2, 0x131F6FF5, 0x6F38A9CC, 0x5C427A5F, 0x1D928D7B, 0xF4D2B4DA, 0x1A640884]

  const R3_1: seq<bv32> :=
    [0x345E4165, 0xD2DC39EF, 0xF2ECF51E, 0xC3876AFE, 0x43602812, 0x37CCB7A7, 0x1FE6C459, 0xE5F95617,
     0xBBD926F3, 0xA0952FF2, 0x131F6FF5, 0x6F38A9CC, 0xC389D914, 0x1D928D7B, 0xF4D2B4DA, 0x1A640884]

  const R3_2: seq<bv32> :=
    [0x345E4165, 0xF9B1A43A, 0xF2ECF51E, 0xC3876AFE, 0x43602812, 0x9EFA8ACA, 0x1FE6C459, 0xE5F95617,
     0xBBD926F3, 0x7A3547B1, 0x131F6FF5, 0x6F38A9CC, 0xC389D914, 0x5CB30085, 0xF4D2B4DA, 0x1A640884]

  const R3_3: seq<bv32> :=
    [0x345E4165, 0xF9B1A43A, 0xCBEEAD69, 0xC3876AFE, 0x43602812, 0x9EFA8ACA, 0x8126A76E, 0xE5F95617,
     0xBBD926F3, 0x7A3547B1, 0x6418BEBC, 0x6F38A9CC, 0xC389D914, 0x5CB30085, 0x434B68C6, 0x1A640884]

  const R3_4: seq<bv32> :=
    [0x345E4165, 0xF9B1A43A, 0xCBEEAD69, 0xDA3B3EE8, 0x43602812, 0x9EFA8ACA, 0x8126A76E, 0xF68A0869,
     0xBBD926F3, 0x7A3547B1, 0x6418BEBC, 0xE35769C3, 0xC389D914, 0x5CB30085, 0x434B68C6, 0xAA8D0C13]

  const R3_5: seq<bv32> :=
    [0xCE7E87D9, 0xF9B1A43A, 0xCBEEAD69, 0xDA3B3EE8, 0x43602812, 0x3B7F9ACE, 0x8126A76E, 0xF68A0869,
     0xBBD926F3, 0x7A3547B1, 0x6753449F, 0xE35769C3, 0xC389D914, 0x5CB30085, 0x434B68C6, 0x42FE0C0E]

  const R3_6: seq<bv32> :=
    [0xCE7E87D9, 0xA31FFB1B, 0xCBEEAD69, 0xDA3B3EE8, 0x43602812, 0x3B7F9ACE, 0x88E11B18, 0xF68A0869,
     0xBBD926F3, 0x7A3547B1, 0x6753449F, 0x19566D45, 0xA3424A31, 0x5CB30085, 0x434B68C6, 0x42FE0C0E]

  const R3_7: seq<bv32> :=
    [0xCE7E87D9, 0xA31FFB1B, 0x6F562E4D, 0xDA3B3EE8, 0x43602812, 0x3B7F9ACE, 0x88E11B18, 0x1E1A71EF,
     0x72E14C98, 0x7A3547B1, 0x6753449F, 0x19566D45, 0xA3424A31, 0x01B086DA, 0x434B68C6, 0x42FE0C0E]

  const R4: seq<bv32> :=
    [0xCE7E87D9, 0xA31FFB1B, 0x6F562E4D, 0x3684A3AB, 0xC30E842C, 0x3B7F9ACE, 0x88E11B18, 0x1E1A71EF,
     0x72E14C98, 0x416F21B9, 0x6753449F, 0x19566D45, 0xA3424A31, 0x01B086DA, 0xB8FD7B38, 0x42FE0C0E]

  const R4_1: seq<bv32> :=
    [0x5141C3A6, 0xA31FFB1B, 0x6F562E4D, 0x3684A3AB, 0x592FEFC8, 0x3B7F9ACE, 0x88E11B18, 0x1E1A71EF,
     0x2F06E87E, 0x416F21B9, 0x6753449F, 0x19566D45, 0x75F16917, 0x01B086DA, 0xB8FD7B38, 0x42FE0C0E]

  const R4_2: seq<bv32> :=
    [0x5141C3A6, 0xA841FCE6, 0x6F562E4D, 0x3684A3AB, 0x592FEFC8, 0xB2562F07, 0x88E11B18, 0x1E1A71EF,
     0x2F06E87E, 0xC6C6CAA3, 0x6753449F, 0x19566D45, 0x75F16917, 0x7223C9BB, 0xB8FD7B38, 0x42FE0C0E]

  const R4_3: seq<bv32> :=
    [0x5141C3A6, 0xA841FCE6, 0x121E5A7A, 0x3684A3AB, 0x592FEFC8, 0xB2562F07, 0x96124E62, 0x1E1A71EF,
     0x2F06E87E, 0xC6C6CAA3, 0xDCCB3589, 0x19566D45, 0x75F16917, 0x7223C9BB, 0x431AB020, 0x42FE0C0E]

  const R4_4: seq<bv32> :=
    [0x5141C3A6, 0xA841FCE6, 0x121E5A7A, 0x63C3A869, 0x592FEFC8, 0xB2562F07, 0x96124E62, 0xC60F77C2,
     0x2F06E87E, 0xC6C6CAA3, 0xDCCB3589, 0x8AA88C20, 0x75F16917, 0x7223C9BB, 0x431AB020, 0x57BE087A]

  const R4_5: seq<bv32> :=
    [0x4E03490C, 0xA841FCE6, 0x121E5A7A, 0x63C3A869, 0x592FEFC8, 0xEA7C9CF0, 0x96124E62, 0xC60F77C2,
     0x2F06E87E, 0xC6C6CAA3, 0xABBFAF66, 0x8AA88C20, 0x75F16917, 0x7223C9BB, 0x431AB020, 0xD41D25B4]

  const R4_6: seq<bv32> :=
    [0x4E03490C, 0x97EEBEF9, 0x121E5A7A, 0x63C3A869, 0x592FEFC8, 0xEA7C9CF0, 0xB3A3E583, 0xC60F77C2,
     0x2F06E87E, 0xC6C6CAA3, 0xABBFAF66, 0x5EFD347A, 0xB1F55CB5, 0x7223C9BB, 0x431AB020, 0xD41D25B4]

  const R4_7: seq<bv32> :=
    [0x4E03490C, 0x97EEBEF9, 0xF682BB04, 0x63C3A869, 0x592FEFC8, 0xEA7C9CF0, 0xB3A3E583, 0xE5BAD8A8,
     0x4F9F9D79, 0xC6C6CAA3, 0xABBFAF66, 0x5EFD347A, 0xB1F55CB5, 0x05110AED, 0x431AB020, 0xD41D25B4]

  const R5: seq<bv32> :=
    [0x4E03490C, 0x97EEBEF9, 0xF682BB04, 0x2F47E3B0, 0x50B4761B, 0xEA7C9CF0, 0xB3A3E583, 0xE5BAD8A8,
     0x4F9F9D79, 0x44F52393, 0xABBFAF66, 0x5EFD347A, 0xB1F55CB5, 0x05110AED, 0x561C5907, 0xD41D25B4]

  const R5_1: seq<bv32> :=
    [0xFA61C55F, 0x97EEBEF9, 0xF682BB04, 0x2F47E3B0, 0x58F7F63E, 0xEA7C9CF0, 0xB3A3E583, 0xE5BAD8A8,
     0x271BE9D4, 0x44F52393, 0xABBFAF66, 0x5EFD347A, 0xF3EA1D19, 0x05110AED, 0x561C5907, 0xD41D25B4]

  const R5_2: seq<bv32> :=
    [0xFA61C55F, 0xD5EB33E1, 0xF682BB04, 0x2F47E3B0, 0x58F7F63E, 0x68C8B4EB, 0xB3A3E583, 0xE5BAD8A8,
     0x271BE9D4, 0x85AE4691, 0xABBFAF66, 0x5EFD347A, 0xF3EA1D19, 0xEFB49B84, 0x561C5907, 0xD41D25B4]

  const R5_3: seq<bv32> :=
    [0xFA61C55F, 0xD5EB33E1, 0xDF08D1F5, 0x2F47E3B0, 0x58F7F63E, 0x68C8B4EB, 0xC625D40C, 0xE5BAD8A8,
     0x271BE9D4, 0x85AE4691, 0x2D6E7AC6, 0x5EFD347A, 0xF3EA1D19, 0xEFB49B84, 0x882DCF26, 0xD41D25B4]

  const R5_4: seq<bv32> :=
    [0xFA61C55F, 0xD5EB33E1, 0xDF08D1F5, 0x47D5CE2D, 0x58F7F63E, 0x68C8B4EB, 0xC625D40C, 0x951CD101,
     0x271BE9D4, 0x85AE4691, 0x2D6E7AC6, 0x31F92877, 0xF3EA1D19, 0xEFB49B84, 0x882DCF26, 0x390F32DE]

  const R5_5: seq<bv32> :=
    [0x092A7C36, 0xD5EB33E1, 0xDF08D1F5, 0x47D5CE2D, 0x58F7F63E, 0x1474E049, 0xC625D40C, 0x951CD101,
     0x271BE9D4, 0x85AE4691, 0x3428E82C, 0x31F92877, 0xF3EA1D19, 0xEFB49B84, 0x882DCF26, 0xBE261341]

  const R5_6: seq<bv32> :=
    [0x092A7C36, 0x20D8F099, 0xDF08D1F5, 0x47D5CE2D, 0x58F7F63E, 0x1474E049, 0xA589007E, 0x951CD101,
     0x271BE9D4, 0x85AE4691, 0x3428E82C, 0x798CFAAC, 0x2C9F623A, 0xEFB49B84, 0x882DCF26, 0xBE261341]

  const R5_7: seq<bv32> :=
    [0x092A7C36, 0x20D8F099, 0x996BF24F, 0x47D5CE2D, 0x58F7F63E, 0x1474E049, 0xA589007E, 0x5F15AE2E,
     0x79F86405, 0x85AE4691, 0x3428E82C, 0x798CFAAC, 0x2C9F623A, 0x1969DEA0, 0x882DCF26, 0xBE261341]

  const R6: seq<bv32> :=
    [0x092A7C36, 0x20D8F099, 0x996BF24F, 0x6A62C0EB, 0xBBC32904, 0x1474E049, 0xA589007E, 0x5F15AE2E,
     0x79F86405, 0xC0E37AD2, 0x3428E82C, 0x798CFAAC, 0x2C9F623A, 0x1969DEA0, 0x2FE80B61, 0xBE261341]

  const R6_1: seq<bv32> :=
    [0x6B44E4ED, 0x20D8F099, 0x996BF24F, 0x6A62C0EB, 0xA969C811, 0x1474E049, 0xA589007E, 0x5F15AE2E,
     0x8505EC23, 0xC0E37AD2, 0x3428E82C, 0x798CFAAC, 0x440C9FAC, 0x1969DEA0, 0x2FE80B61, 0xBE261341]

  const R6_2: seq<bv32> :=
    [0x6B44E4ED, 0x49B9CE97, 0x996BF24F, 0x6A62C0EB, 0xA969C811, 0xB1D3C46F, 0xA589007E, 0x5F15AE2E,
     0x8505EC23, 0xCB085A3D, 0x3428E82C, 0x798CFAAC, 0x440C9FAC, 0xFBE2B347, 0x2FE80B61, 0xBE261341]

  const R6_3: seq<bv32> :=
    [0x6B44E4ED, 0x49B9CE97, 0x1E885B52, 0x6A62C0EB, 0xA969C811, 0xB1D3C46F, 0xC6105546, 0x5F15AE2E,
     0x8505EC23, 0xCB085A3D, 0x521F482F, 0x798CFAAC, 0x440C9FAC, 0xFBE2B347, 0x244A4EE7, 0xBE261341]

  const R6_4: seq<bv32> :=
    [0x6B44E4ED, 0x49B9CE97, 0x1E885B52, 0xD73AB9C8, 0xA969C811, 0xB1D3C46F, 0xC6105546, 0xBB210D2A,
     0x8505EC23, 0xCB085A3D, 0x521F482F, 0x58B408B5, 0x440C9FAC, 0xFBE2B347, 0x244A4EE7, 0x62CE96AB]

  const R6_5: seq<bv32> :=
    [0x6DDF4B98, 0x49B9CE97, 0x1E885B52, 0xD73AB9C8, 0xA969C811, 0x46DA35F5, 0xC6105546, 0xBB210D2A,
     0x8505EC23, 0xCB085A3D, 0xBA4B1657, 0x58B408B5, 0x440C9FAC, 0xFBE2B347, 0x244A4EE7, 0x28344E52]

  const R6_6: seq<bv32> :=
    [0x6DDF4B98, 0x5FDE0110, 0x1E885B52, 0xD73AB9C8, 0xA969C811, 0x46DA35F5, 0x31FB36CA, 0xBB210D2A,
     0x8505EC23, 0xCB085A3D, 0xBA4B1657, 0xC4702B5E, 0xAF4AD6E3, 0xFBE2B347, 0x244A4EE7, 0x28344E52]

  const R6_7: seq<bv32> :=
    [0x6DDF4B98, 0x5FDE0110, 0xD9DDB632, 0xD73AB9C8, 0xA969C811, 0x46DA35F5, 0x31FB36CA, 0x70E56323,
     0x46D58770, 0xCB085A3D, 0xBA4B1657, 0xC4702B5E, 0xAF4AD6E3, 0xE6947902, 0x244A4EE7, 0x28344E52]

  const R7: seq<bv32> :=
    [0x6DDF4B98, 0x5FDE0110, 0xD9DDB632, 0x7418250B, 0xDDA3EA19, 0x46DA35F5, 0x31FB36CA, 0x70E56323,
     0x46D58770, 0xC0C8E4E6, 0xBA4B1657, 0xC4702B5E, 0xAF4AD6E3, 0xE6947902, 0x2681E5BB, 0x28344E52]

  const R7_1: seq<bv32> :=
    [0x03E54529, 0x5FDE0110, 0xD9DDB632, 0x7418250B, 0xD42130AC, 0x46DA35F5, 0x31FB36CA, 0x70E56323,
     0xE1CA4D19, 0xC0C8E4E6, 0xBA4B1657, 0xC4702B5E, 0xB7A1E0E0, 0xE6947902, 0x2681E5BB, 0x28344E52]

  const R7_2: seq<bv32> :=
    [0x03E54529, 0x47C6AB85, 0xD9DDB632, 0x7418250B, 0xD42130AC, 0xDADD4DB8, 0x31FB36CA, 0x70E56323,
     0xE1CA4D19, 0xD0BBCE1B, 0xBA4B1657, 0xC4702B5E, 0xB7A1E0E0, 0xC1EBA909, 0x2681E5BB, 0x28344E52]

  const R7_3: seq<bv32> :=
    [0x03E54529, 0x47C6AB85, 0xA3309C22, 0x7418250B, 0xD42130AC, 0xDADD4DB8, 0x0A083E56, 0x70E56323,
     0xE1CA4D19, 0xD0BBCE1B, 0x3B43BF5A, 0xC4702B5E, 0xB7A1E0E0, 0xC1EBA909, 0x77B17BAA, 0x28344E52]

  const R7_4: seq<bv32> :=
    [0x03E54529, 0x47C6AB85, 0xA3309C22, 0x7EADD7CE, 0xD42130AC, 0xDADD4DB8, 0x0A083E56, 0xDBD83FE2,
     0xE1CA4D19, 0xD0BBCE1B, 0x3B43BF5A, 0x5C07FFDF, 0xB7A1E0E0, 0xC1EBA909, 0x77B17BAA, 0xD11B07B8]

  const R7_5: seq<bv32> :=
    [0xF6EB4385, 0x47C6AB85, 0xA3309C22, 0x7EADD7CE, 0xD42130AC, 0x60CD994D, 0x0A083E56, 0xDBD83FE2,
     0xE1CA4D19, 0xD0BBCE1B, 0x82E92B96, 0x5C07FFDF, 0xB7A1E0E0, 0xC1EBA909, 0x77B17BAA, 0xB24C5C63]

  const R7_6: seq<bv32> :=
    [0xF6EB4385, 0x0F5070CF, 0xA3309C22, 0x7EADD7CE, 0xD42130AC, 0x60CD994D, 0xAD805036, 0xDBD83FE2,
     0xE1CA4D19, 0xD0BBCE1B, 0x82E92B96, 0xD0DA8654, 0x6B96A006, 0xC1EBA909, 0x77B17BAA, 0xB24C5C63]

  const R7_7: seq<bv32> :=
    [0xF6EB4385, 0x0F5070CF, 0x824AC4D4, 0x7EADD7CE, 0xD42130AC, 0x60CD994D, 0xAD805036, 0x89D591CE,
     0x9E5243F3, 0xD0BBCE1B, 0x82E92B96, 0xD0DA8654, 0x6B96A006, 0x477A37F7, 0x77B17BAA, 0xB24C5C63]

  const R8: seq<bv32> :=
    [0xF6EB4385, 0x0F5070CF, 0x824AC4D4, 0xFF026184, 0x71DB97DD, 0x60CD994D, 0xAD805036, 0x89D591CE,
     0x9E5243F3, 0x16D0EE25, 0x82E92B96, 0xD0DA8654, 0x6B96A006, 0x477A37F7, 0xD244FA8C, 0xB24C5C63]

  const R8_1: seq<bv32> :=
    [0x45D0C1E8, 0x0F5070CF, 0x824AC4D4, 0xFF026184, 0xB88C8389, 0x60CD994D, 0xAD805036, 0x89D591CE,
     0xCE78FF81, 0x16D0EE25, 0x82E92B96, 0xD0DA8654, 0xB4C2B83E, 0x477A37F7, 0xD244FA8C, 0xB24C5C63]

  const R8_2: seq<bv32> :=
    [0x45D0C1E8, 0x8BEA4D63, 0x824AC4D4, 0xFF026184, 0xB88C8389, 0xFD373C26, 0xAD805036, 0x89D591CE,
     0xCE78FF81, 0x56362D3F, 0x82E92B96, 0xD0DA8654, 0xB4C2B83E, 0x017A07B6, 0xD244FA8C, 0xB24C5C63]

  const R8_3: seq<bv32> :=
    [0x45D0C1E8, 0x8BEA4D63, 0x375C5309, 0xFF026184, 0xB88C8389, 0xFD373C26, 0x47C90125, 0x89D591CE,
     0xCE78FF81, 0x56362D3F, 0x4D1EAFFD, 0xD0DA8654, 0xB4C2B83E, 0x017A07B6, 0xDAAE86D8, 0xB24C5C63]

  const R8_4: seq<bv32> :=
    [0x45D0C1E8, 0x8BEA4D63, 0x375C5309, 0x6DEA03EF, 0xB88C8389, 0xFD373C26, 0x47C90125, 0x2B92965F,
     0xCE78FF81, 0x56362D3F, 0x4D1EAFFD, 0x5B4535B1, 0xB4C2B83E, 0x017A07B6, 0xDAAE86D8, 0xDB3974C2]

  const R8_5: seq<bv32> :=
    [0x0A49D0BB, 0x8BEA4D63, 0x375C5309, 0x6DEA03EF, 0xB88C8389, 0x390F8B4D, 0x47C90125, 0x2B92965F,
     0xCE78FF81, 0x56362D3F, 0x5D33CDBB, 0x5B4535B1, 0xB4C2B83E, 0x017A07B6, 0xDAAE86D8, 0x85488580]

  const R8_6: seq<bv32> :=
    [0x0A49D0BB, 0xFD73BFEB, 0x375C5309, 0x6DEA03EF, 0xB88C8389, 0x390F8B4D, 0x0A23271F, 0x2B92965F,
     0xCE78FF81, 0x56362D3F, 0x5D33CDBB, 0x17D4372D, 0xC5D89A0B, 0x017A07B6, 0xDAAE86D8, 0x85488580]

  const R8_7: seq<bv32> :=
    [0x0A49D0BB, 0xFD73BFEB, 0xC24392D4, 0x6DEA03EF, 0xB88C8389, 0x390F8B4D, 0x0A23271F, 0x0E051682,
     0x5B48A341, 0x56362D3F, 0x5D33CDBB, 0x17D4372D, 0xC5D89A0B, 0x9DF1402C, 0xDAAE86D8, 0x85488580]

  const R9: seq<bv32> :=
    [0x0A49D0BB, 0xFD73BFEB, 0xC24392D4, 0xE110766D, 0x7C188159, 0x390F8B4D, 0x0A23271F, 0x0E051682,
     0x5B48A341, 0x0861DFF7, 0x5D33CDBB, 0x17D4372D, 0xC5D89A0B, 0x9DF1402C, 0xB08AB5E0, 0x85488580]

  const R9_1: seq<bv32> :=
    [0x7CDC780B, 0xFD73BFEB, 0xC24392D4, 0xE110766D, 0x6CDEAC08, 0x390F8B4D, 0x0A23271F, 0x0E051682,
     0xE6A398AF, 0x0861DFF7, 0x5D33CDBB, 0x17D4372D, 0xC33BB1B4, 0x9DF1402C, 0xB08AB5E0, 0x85488580]

  const R9_2: seq<bv32> :=
    [0x7CDC780B, 0xC6858DDF, 0xC24392D4, 0xE110766D, 0x6CDEAC08, 0x4FBDC89A, 0x0A23271F, 0x0E051682,
     0xE6A398AF, 0xA49D3936, 0x5D33CDBB, 0x17D4372D, 0xC33BB1B4, 0x9126ADCD, 0xB08AB5E0, 0x85488580]

  const R9_3: seq<bv32> :=
    [0x7CDC780B, 0xC6858DDF, 0x13424029, 0xE110766D, 0x6CDEAC08, 0x4FBDC89A, 0x2FC4F87E, 0x0E051682,
     0xE6A398AF, 0xA49D3936, 0xBA840FC6, 0x17D4372D, 0xC33BB1B4, 0x9126ADCD, 0x513CC51F, 0x85488580]

  const R9_4: seq<bv32> :=
    [0x7CDC780B, 0xC6858DDF, 0x13424029, 0x5A860FE3, 0x6CDEAC08, 0x4FBDC89A, 0x2FC4F87E, 0xECEE94B0,
     0xE6A398AF, 0xA49D3936, 0xBA840FC6, 0x0AA95FDD, 0xC33BB1B4, 0x9126ADCD, 0x513CC51F, 0xE965BE53]

  const R9_5: seq<bv32> :=
    [0x4C704011, 0xC6858DDF, 0x13424029, 0x5A860FE3, 0x6CDEAC08, 0x1AED8DA0, 0x2FC4F87E, 0xECEE94B0,
     0xE6A398AF, 0xA49D3936, 0x3FE02477, 0x0AA95FDD, 0xC33BB1B4, 0x9126ADCD, 0x513CC51F, 0x8665EEB2]

  const R9_6: seq<bv32> :=
    [0x4C704011, 0x5D1D8D32, 0x13424029, 0x5A860FE3, 0x6CDEAC08, 0x1AED8DA0, 0xCCEF36A8, 0xECEE94B0,
     0xE6A398AF, 0xA49D3936, 0x3FE02477, 0x374AD8B8, 0xF4B8436A, 0x9126ADCD, 0x513CC51F, 0x8665EEB2]

  const R9_7: seq<bv32> :=
    [0x4C704011, 0x5D1D8D32, 0x6C08300E, 0x5A860FE3, 0x6CDEAC08, 0x1AED8DA0, 0xCCEF36A8, 0xC70D778B,
     0x7C5941DA, 0xA49D3936, 0x3FE02477, 0x374AD8B8, 0xF4B8436A, 0x1CA11815, 0x513CC51F, 0x8665EEB2]

  const R10: seq<bv32> :=
    [0x4C704011, 0x5D1D8D32, 0x6C08300E, 0xBD9D20DF, 0xB819D2BD, 0x1AED8DA0, 0xCCEF36A8, 0xC70D778B,
     0x7C5941DA, 0x8D485751, 0x3FE02477, 0x374AD8B8, 0xF4B8436A, 0x1CA11815, 0x69B687C3, 0x8665EEB2]

  /** The block: the state after ten double rounds plus the initial state,
      one row of the 4x4 matrix per line. */
  const ZERO_BLOCK: seq<bv32> :=
    [0xADE0B876, 0x903DF1A0, 0xE56A5D40, 0x28BD8653] +
    [0xB819D2BD, 0x1AED8DA0, 0xCCEF36A8, 0xC70D778B] +
    [0x7C5941DA, 0x8D485751, 0x3FE02477, 0x374AD8B8] +
    [0xF4B8436A, 0x1CA11815, 0x69B687C3, 0x8665EEB2]

  /** The 64 keystream bytes of the vector, sixteen per line. */
  const ZERO_KEYSTREAM: seq<bv8> :=
    [0x76, 0xB8, 0xE0, 0xAD, 0xA0, 0xF1, 0x3D, 0x90, 0x40, 0x5D, 0x6A, 0xE5, 0x53, 0x86, 0xBD, 0x28] +
    [0xBD, 0xD2, 0x19, 0xB8, 0xA0, 0x8D, 0xED, 0x1A, 0xA8, 0x36, 0xEF, 0xCC, 0x8B, 0x77, 0x0D, 0xC7] +
    [0xDA, 0x41, 0x59, 0x7C, 0x51, 0x57, 0x48, 0x8D, 0x77, 0x24, 0xE0, 0x3F, 0xB8, 0xD8, 0x4A, 0x37] +
    [0x6A, 0x43, 0xB8, 0xF4, 0x15, 0x18, 0xA1, 0x1C, 0xC3, 0x87, 0xB6, 0x69, 0xB2, 0xEE, 0x65, 0x86]

  /** A quarter round sets words a, b, c, d to the four results of
      QuarterRound and leaves the other twelve alone. */
  lemma QuarterRoundAtWords(x: seq<bv32>, a: nat, b: nat, c: nat, d: nat, y: seq<bv32>)
    requires |x| == 16 && |y| == 16 && a < 16 && b < 16 && c < 16 && d < 16
    requires a != b && a != c && a != d && b != c && b != d && c != d
    requires QuarterRound(x[a], x[b], x[c], x[d]) == (y[a], y[b], y[c], y[d])
    requires forall i :: 0 <= i < 16 && i != a && i != b && i != c && i != d ==> x[i] == y[i]
    ensures QuarterRoundAt(x, a, b, c, d) == y
  {
  }

  // `Stepk_i`: quarter round i of double round k + 1, from `Rk_(i-1)` to `Rk_i`
  // (with `Rk` in place of `Rk_0` and `R(k+1)` in place of `Rk_8`).

  lemma Step0_1()
    ensures QuarterRoundAt(R0, 0, 4, 8, 12) == R0_1
  {
    QuarterRoundAtWords(R0, 0, 4, 8, 12, R0_1);
  }

  lemma Step0_2()
    ensures QuarterRoundAt(R0_1, 1, 5, 9, 13) == R0_2
  {
    QuarterRoundAtWords(R0_1, 1, 5, 9, 13, R0_2);
  }

  lemma Step0_3()
    ensures QuarterRoundAt(R0_2, 2, 6, 10, 14) == R0_3
  {
    QuarterRoundAtWords(R0_2, 2, 6, 10, 14, R0_3);
  }

  lemma Step0_4()
    ensures QuarterRoundAt(R0_3, 3, 7, 11, 15) == R0_4
  {
    QuarterRoundAtWords(R0_3, 3, 7, 11, 15, R0_4);
  }

  lemma Step0_5()
    ensures QuarterRoundAt(R0_4, 0, 5, 10, 15) == R0_5
  {
    QuarterRoundAtWords(R0_4, 0, 5, 10, 15, R0_5);
  }

  lemma Step0_6()
    ensures QuarterRoundAt(R0_5, 1, 6, 11, 12) == R0_6
  {
    QuarterRoundAtWords(R0_5, 1, 6, 11, 12, R0_6);
  }

  lemma Step0_7()
    ensures QuarterRoundAt(R0_6, 2, 7, 8, 13) == R0_7
  {
    QuarterRoundAtWords(R0_6, 2, 7, 8, 13, R0_7);
  }

  lemma Step0_8()
    ensures QuarterRoundAt(R0_7, 3, 4, 9, 14) == R1
  {
    QuarterRoundAtWords(R0_7, 3, 4, 9, 14, R1);
  }

  /** Double round 1: the column round, then the diagonal round. */
  lemma DoubleRound1()
    ensures DoubleRound(R0) == R1
  {
    Step0_1();
    Step0_2();
    Step0_3();
    Step0_4();
    Step0_5();
    Step0_6();
    Step0_7();
    Step0_8();
    ColumnRoundQuarters(R0, R0_1, R0_2, R0_3, R0_4);
    DiagonalRoundQuarters(R0_4, R0_5, R0_6, R0_7, R1);
  }

  lemma Step1_1()
    ensures QuarterRoundAt(R1, 0, 4, 8, 12) == R1_1
  {
    QuarterRoundAtWords(R1, 0, 4, 8, 12, R1_1);
  }

  lemma Step1_2()
    ensures QuarterRoundAt(R1_1, 1, 5, 9, 13) == R1_2
  {
    QuarterRoundAtWords(R1_1, 1, 5, 9, 13, R1_2);
  }

  lemma Step1_3()
    ensures QuarterRoundAt(R1_2, 2, 6, 10, 14) == R1_3
  {
    QuarterRoundAtWords(R1_2, 2, 6, 10, 14, R1_3);
  }

  lemma Step1_4()
    ensures QuarterRoundAt(R1_3, 3, 7, 11, 15) == R1_4
  {
    QuarterRoundAtWords(R1_3, 3, 7, 11, 15, R1_4);
  }

  lemma Step1_5()
    ensures QuarterRoundAt(R1_4, 0, 5, 10, 15) == R1_5
  {
    QuarterRoundAtWords(R1_4, 0, 5, 10, 15, R1_5);
  }

  lemma Step1_6()
    ensures QuarterRoundAt(R1_5, 1, 6, 11, 12) == R1_6
  {
    QuarterRoundAtWords(R1_5, 1, 6, 11, 12, R1_6);
  }

  lemma Step1_7()
    ensures QuarterRoundAt(R1_6, 2, 7, 8, 13) == R1_7
  {
    QuarterRoundAtWords(R1_6, 2, 7, 8, 13, R1_7);
  }

  lemma Step1_8()
    ensures QuarterRoundAt(R1_7, 3, 4, 9, 14) == R2
  {
    QuarterRoundAtWords(R1_7, 3, 4, 9, 14, R2);
  }

  /** Double round 2: the column round, then the diagonal round. */
  lemma DoubleRound2()
    ensures DoubleRound(R1) == R2
  {
    Step1_1();
    Step1_2();
    Step1_3();
    Step1_4();
    Step1_5();
    Step1_6();
    Step1_7();
    Step1_8();
    ColumnRoundQuarters(R1, R1_1, R1_2, R1_3, R1_4);
    DiagonalRoundQuarters(R1_4, R1_5, R1_6, R1_7, R2);
  }

  lemma Step2_1()
    ensures QuarterRoundAt(R2, 0, 4, 8, 12) == R2_1
  {
    QuarterRoundAtWords(R2, 0, 4, 8, 12, R2_1);
  }

  lemma Step2_2()
    ensures QuarterRoundAt(R2_1, 1, 5, 9, 13) == R2_2
  {
    QuarterRoundAtWords(R2_1, 1, 5, 9, 13, R2_2);
  }

  lemma Step2_3()
    ensures QuarterRoundAt(R2_2, 2, 6, 10, 14) == R2_3
  {
    QuarterRoundAtWords(R2_2, 2, 6, 10, 14, R2_3);
  }

  lemma Step2_4()
    ensures QuarterRoundAt(R2_3, 3, 7, 11, 15) == R2_4
  {
    QuarterRoundAtWords(R2_3, 3, 7, 11, 15, R2_4);
  }

  lemma Step2_5()
    ensures QuarterRoundAt(R2_4, 0, 5, 10, 15) == R2_5
  {
    QuarterRoundAtWords(R2_4, 0, 5, 10, 15, R2_5);
  }

  lemma Step2_6()
    ensures QuarterRoundAt(R2_5, 1, 6, 11, 12) == R2_6
  {
    QuarterRoundAtWords(R2_5, 1, 6, 11, 12, R2_6);
  }

  lemma Step2_7()
    ensures QuarterRoundAt(R2_6, 2, 7, 8, 13) == R2_7
  {
    QuarterRoundAtWords(R2_6, 2, 7, 8, 13, R2_7);
  }

  lemma Step2_8()
    ensures QuarterRoundAt(R2_7, 3, 4, 9, 14) == R3
  {
    QuarterRoundAtWords(R2_7, 3, 4, 9, 14, R3);
  }

  /** Double round 3: the column round, then the diagonal round. */
  lemma DoubleRound3()
    ensures DoubleRound(R2) == R3
  {
    Step2_1();
    Step2_2();
    Step2_3();
    Step2_4();
    Step2_5();
    Step2_6();
    Step2_7();
    Step2_8();
    ColumnRoundQuarters(R2, R2_1, R2_2, R2_3, R2_4);
    DiagonalRoundQuarters(R2_4, R2_5, R2_6, R2_7, R3);
  }

  lemma Step3_1()
    ensures QuarterRoundAt(R3, 0, 4, 8, 12) == R3_1
  {
    QuarterRoundAtWords(R3, 0, 4, 8, 12, R3_1);
  }

  lemma Step3_2()
    ensures QuarterRoundAt(R3_1, 1, 5, 9, 13) == R3_2
  {
    QuarterRoundAtWords(R3_1, 1, 5, 9, 13, R3_2);
  }

  lemma Step3_3()
    ensures QuarterRoundAt(R3_2, 2, 6, 10, 14) == R3_3
  {
    QuarterRoundAtWords(R3_2, 2, 6, 10, 14, R3_3);
  }

  lemma Step3_4()
    ensures QuarterRoundAt(R3_3, 3, 7, 11, 15) == R3_4
  {
    QuarterRoundAtWords(R3_3, 3, 7, 11, 15, R3_4);
  }

  lemma Step3_5()
    ensures QuarterRoundAt(R3_4, 0, 5, 10, 15) == R3_5
  {
    QuarterRoundAtWords(R3_4, 0, 5, 10, 15, R3_5);
  }

  lemma Step3_6()
    ensures QuarterRoundAt(R3_5, 1, 6, 11, 12) == R3_6
  {
    QuarterRoundAtWords(R3_5, 1, 6, 11, 12, R3_6);
  }

  lemma Step3_7()
    ensures QuarterRoundAt(R3_6, 2, 7, 8, 13) == R3_7
  {
    QuarterRoundAtWords(R3_6, 2, 7, 8, 13, R3_7);
  }

  lemma Step3_8()
    ensures QuarterRoundAt(R3_7, 3, 4, 9, 14) == R4
  {
    QuarterRoundAtWords(R3_7, 3, 4, 9, 14, R4);
  }

  /** Double round 4: the column round, then the diagonal round. */
  lemma DoubleRound4()
    ensures DoubleRound(R3) == R4
  {
    Step3_1();
    Step3_2();
    Step3_3();
    Step3_4();
    Step3_5();
    Step3_6();
    Step3_7();
    Step3_8();
    ColumnRoundQuarters(R3, R3_1, R3_2, R3_3, R3_4);
    DiagonalRoundQuarters(R3_4, R3_5, R3_6, R3_7, R4);
  }

  lemma Step4_1()
    ensures QuarterRoundAt(R4, 0, 4, 8, 12) == R4_1
  {
    QuarterRoundAtWords(R4, 0, 4, 8, 12, R4_1);
  }

  lemma Step4_2()
    ensures QuarterRoundAt(R4_1, 1, 5, 9, 13) == R4_2
  {
    QuarterRoundAtWords(R4_1, 1, 5, 9, 13, R4_2);
  }

  lemma Step4_3()
    ensures QuarterRoundAt(R4_2, 2, 6, 10, 14) == R4_3
  {
    QuarterRoundAtWords(R4_2, 2, 6, 10, 14, R4_3);
  }

  lemma Step4_4()
    ensures QuarterRoundAt(R4_3, 3, 7, 11, 15) == R4_4
  {
    QuarterRoundAtWords(R4_3, 3, 7, 11, 15, R4_4);
  }

  lemma Step4_5()
    ensures QuarterRoundAt(R4_4, 0, 5, 10, 15) == R4_5
  {
    QuarterRoundAtWords(R4_4, 0, 5, 10, 15, R4_5);
  }

  lemma Step4_6()
    ensures QuarterRoundAt(R4_5, 1, 6, 11, 12) == R4_6
  {
    QuarterRoundAtWords(R4_5, 1, 6, 11, 12, R4_6);
  }

  lemma Step4_7()
    ensures QuarterRoundAt(R4_6, 2, 7, 8, 13) == R4_7
  {
    QuarterRoundAtWords(R4_6, 2, 7, 8, 13, R4_7);
  }

  lemma Step4_8()
    ensures QuarterRoundAt(R4_7, 3, 4, 9, 14) == R5
  {
    QuarterRoundAtWords(R4_7, 3, 4, 9, 14, R5);
  }

  /** Double round 5: the column round, then the diagonal round. */
  lemma DoubleRound5()
    ensures DoubleRound(R4) == R5
  {
    Step4_1();
    Step4_2();
    Step4_3();
    Step4_4();
    Step4_5();
    Step4_6();
    Step4_7();
    Step4_8();
    ColumnRoundQuarters(R4, R4_1, R4_2, R4_3, R4_4);
    DiagonalRoundQuarters(R4_4, R4_5, R4_6, R4_7, R5);
  }

  lemma Step5_1()
    ensures QuarterRoundAt(R5, 0, 4, 8, 12) == R5_1
  {
    QuarterRoundAtWords(R5, 0, 4, 8, 12, R5_1);
  }

  lemma Step5_2()
    ensures QuarterRoundAt(R5_1, 1, 5, 9, 13) == R5_2
  {
    QuarterRoundAtWords(R5_1, 1, 5, 9, 13, R5_2);
  }

  lemma Step5_3()
    ensures QuarterRoundAt(R5_2, 2, 6, 10, 14) == R5_3
  {
    QuarterRoundAtWords(R5_2, 2, 6, 10, 14, R5_3);
  }

  lemma Step5_4()
    ensures QuarterRoundAt(R5_3, 3, 7, 11, 15) == R5_4
  {
    QuarterRoundAtWords(R5_3, 3, 7, 11, 15, R5_4);
  }

  lemma Step5_5()
    ensures QuarterRoundAt(R5_4, 0, 5, 10, 15) == R5_5
  {
    QuarterRoundAtWords(R5_4, 0, 5, 10, 15, R5_5);
  }

  lemma Step5_6()
    ensures QuarterRoundAt(R5_5, 1, 6, 11, 12) == R5_6
  {
    QuarterRoundAtWords(R5_5, 1, 6, 11, 12, R5_6);
  }

  lemma Step5_7()
    ensures QuarterRoundAt(R5_6, 2, 7, 8, 13) == R5_7
  {
    QuarterRoundAtWords(R5_6, 2, 7, 8, 13, R5_7);
  }

  lemma Step5_8()
    ensures QuarterRoundAt(R5_7, 3, 4, 9, 14) == R6
  {
    QuarterRoundAtWords(R5_7, 3, 4, 9, 14, R6);
  }

  /** Double round 6: the column round, then the diagonal round. */
  lemma DoubleRound6()
    ensures DoubleRound(R5) == R6
  {
    Step5_1();
    Step5_2();
    Step5_3();
    Step5_4();
    Step5_5();
    Step5_6();
    Step5_7();
    Step5_8();
    ColumnRoundQuarters(R5, R5_1, R5_2, R5_3, R5_4);
    DiagonalRoundQuarters(R5_4, R5_5, R5_6, R5_7, R6);
  }

  lemma Step6_1()
    ensures QuarterRoundAt(R6, 0, 4, 8, 12) == R6_1
  {
    QuarterRoundAtWords(R6, 0, 4, 8, 12, R6_1);
  }

  lemma Step6_2()
    ensures QuarterRoundAt(R6_1, 1, 5, 9, 13) == R6_2
  {
    QuarterRoundAtWords(R6_1, 1, 5, 9, 13, R6_2);
  }

  lemma Step6_3()
    ensures QuarterRoundAt(R6_2, 2, 6, 10, 14) == R6_3
  {
    QuarterRoundAtWords(R6_2, 2, 6, 10, 14, R6_3);
  }

  lemma Step6_4()
    ensures QuarterRoundAt(R6_3, 3, 7, 11, 15) == R6_4
  {
    QuarterRoundAtWords(R6_3, 3, 7, 11, 15, R6_4);
  }

  lemma Step6_5()
    ensures QuarterRoundAt(R6_4, 0, 5, 10, 15) == R6_5
  {
    QuarterRoundAtWords(R6_4, 0, 5, 10, 15, R6_5);
  }

  lemma Step6_6()
    ensures QuarterRoundAt(R6_5, 1, 6, 11, 12) == R6_6
  {
    QuarterRoundAtWords(R6_5, 1, 6, 11, 12, R6_6);
  }

  lemma Step6_7()
    ensures QuarterRoundAt(R6_6, 2, 7, 8, 13) == R6_7
  {
    QuarterRoundAtWords(R6_6, 2, 7, 8, 13, R6_7);
  }

  lemma Step6_8()
    ensures QuarterRoundAt(R6_7, 3, 4, 9, 14) == R7
  {
    QuarterRoundAtWords(R6_7, 3, 4, 9, 14, R7);
  }

  /** Double round 7: the column round, then the diagonal round. */
  lemma DoubleRound7()
    ensures DoubleRound(R6) == R7
  {
    Step6_1();
    Step6_2();
    Step6_3();
    Step6_4();
    Step6_5();
    Step6_6();
    Step6_7();
    Step6_8();
    ColumnRoundQuarters(R6, R6_1, R6_2, R6_3, R6_4);
    DiagonalRoundQuarters(R6_4, R6_5, R6_6, R6_7, R7);
  }

  lemma Step7_1()
    ensures QuarterRoundAt(R7, 0, 4, 8, 12) == R7_1
  {
    QuarterRoundAtWords(R7, 0, 4, 8, 12, R7_1);
  }

  lemma Step7_2()
    ensures QuarterRoundAt(R7_1, 1, 5, 9, 13) == R7_2
  {
    QuarterRoundAtWords(R7_1, 1, 5, 9, 13, R7_2);
  }

  lemma Step7_3()
    ensures QuarterRoundAt(R7_2, 2, 6, 10, 14) == R7_3
  {
    QuarterRoundAtWords(R7_2, 2, 6, 10, 14, R7_3);
  }

  lemma Step7_4()
    ensures QuarterRoundAt(R7_3, 3, 7, 11, 15) == R7_4
  {
    QuarterRoundAtWords(R7_3, 3, 7, 11, 15, R7_4);
  }

  lemma Step7_5()
    ensures QuarterRoundAt(R7_4, 0, 5, 10, 15) == R7_5
  {
    QuarterRoundAtWords(R7_4, 0, 5, 10, 15, R7_5);
  }

  lemma Step7_6()
    ensures QuarterRoundAt(R7_5, 1, 6, 11, 12) == R7_6
  {
    QuarterRoundAtWords(R7_5, 1, 6, 11, 12, R7_6);
  }

  lemma Step7_7()
    ensures QuarterRoundAt(R7_6, 2, 7, 8, 13) == R7_7
  {
    QuarterRoundAtWords(R7_6, 2, 7, 8, 13, R7_7);
  }

  lemma Step7_8()
    ensures QuarterRoundAt(R7_7, 3, 4, 9, 14) == R8
  {
    QuarterRoundAtWords(R7_7, 3, 4, 9, 14, R8);
  }

  /** Double round 8: the column round, then the diagonal round. */
  lemma DoubleRound8()
    ensures DoubleRound(R7) == R8
  {
    Step7_1();
    Step7_2();
    Step7_3();
    Step7_4();
    Step7_5();
    Step7_6();
    Step7_7();
    Step7_8();
    ColumnRoundQuarters(R7, R7_1, R7_2, R7_3, R7_4);
    DiagonalRoundQuarters(R7_4, R7_5, R7_6, R7_7, R8);
  }

  lemma Step8_1()
    ensures QuarterRoundAt(R8, 0, 4, 8, 12) == R8_1
  {
    QuarterRoundAtWords(R8, 0, 4, 8, 12, R8_1);
  }

  lemma Step8_2()
    ensures QuarterRoundAt(R8_1, 1, 5, 9, 13) == R8_2
  {
    QuarterRoundAtWords(R8_1, 1, 5, 9, 13, R8_2);
  }

  lemma Step8_3()
    ensures QuarterRoundAt(R8_2, 2, 6, 10, 14) == R8_3
  {
    QuarterRoundAtWords(R8_2, 2, 6, 10, 14, R8_3);
  }

  lemma Step8_4()
    ensures QuarterRoundAt(R8_3, 3, 7, 11, 15) == R8_4
  {
    QuarterRoundAtWords(R8_3, 3, 7, 11, 15, R8_4);
  }

  lemma Step8_5()
    ensures QuarterRoundAt(R8_4, 0, 5, 10, 15) == R8_5
  {
    QuarterRoundAtWords(R8_4, 0, 5, 10, 15, R8_5);
  }

  lemma Step8_6()
    ensures QuarterRoundAt(R8_5, 1, 6, 11, 12) == R8_6
  {
    QuarterRoundAtWords(R8_5, 1, 6, 11, 12, R8_6);
  }

  lemma Step8_7()
    ensures QuarterRoundAt(R8_6, 2, 7, 8, 13) == R8_7
  {
    QuarterRoundAtWords(R8_6, 2, 7, 8, 13, R8_7);
  }

  lemma Step8_8()
    ensures QuarterRoundAt(R8_7, 3, 4, 9, 14) == R9
  {
    QuarterRoundAtWords(R8_7, 3, 4, 9, 14, R9);
  }

  /** Double round 9: the column round, then the diagonal round. */
  lemma DoubleRound9()
    ensures DoubleRound(R8) == R9
  {
    Step8_1();
    Step8_2();
    Step8_3();
    Step8_4();
    Step8_5();
    Step8_6();
    Step8_7();
    Step8_8();
    ColumnRoundQuarters(R8, R8_1, R8_2, R8_3, R8_4);
    DiagonalRoundQuarters(R8_4, R8_5, R8_6, R8_7, R9);
  }

  lemma Step9_1()
    ensures QuarterRoundAt(R9, 0, 4, 8, 12) == R9_1
  {
    QuarterRoundAtWords(R9, 0, 4, 8, 12, R9_1);
  }

  lemma Step9_2()
    ensures QuarterRoundAt(R9_1, 1, 5, 9, 13) == R9_2
  {
    QuarterRoundAtWords(R9_1, 1, 5, 9, 13, R9_2);
  }

  lemma Step9_3()
    ensures QuarterRoundAt(R9_2, 2, 6, 10, 14) == R9_3
  {
    QuarterRoundAtWords(R9_2, 2, 6, 10, 14, R9_3);
  }

  lemma Step9_4()
    ensures QuarterRoundAt(R9_3, 3, 7, 11, 15) == R9_4
  {
    QuarterRoundAtWords(R9_3, 3, 7, 11, 15, R9_4);
  }

  lemma Step9_5()
    ensures QuarterRoundAt(R9_4, 0, 5, 10, 15) == R9_5
  {
    QuarterRoundAtWords(R9_4, 0, 5, 10, 15, R9_5);
  }

  lemma Step9_6()
    ensures QuarterRoundAt(R9_5, 1, 6, 11, 12) == R9_6
  {
    QuarterRoundAtWords(R9_5, 1, 6, 11, 12, R9_6);
  }

  lemma Step9_7()
    ensures QuarterRoundAt(R9_6, 2, 7, 8, 13) == R9_7
  {
    QuarterRoundAtWords(R9_6, 2, 7, 8, 13, R9_7);
  }

  lemma Step9_8()
    ensures QuarterRoundAt(R9_7, 3, 4, 9, 14) == R10
  {
    QuarterRoundAtWords(R9_7, 3, 4, 9, 14, R10);
  }

  /** Double round 10: the column round, then the diagonal round. */
  lemma DoubleRound10()
    ensures DoubleRound(R9) == R10
  {
    Step9_1();
    Step9_2();
    Step9_3();
    Step9_4();
    Step9_5();
    Step9_6();
    Step9_7();
    Step9_8();
    ColumnRoundQuarters(R9, R9_1, R9_2, R9_3, R9_4);
    DiagonalRoundQuarters(R9_4, R9_5, R9_6, R9_7, R10);
  }

  /** The 20 rounds from the zero state. */
  lemma ZeroRounds()
    ensures Rounds(R0, DOUBLE_ROUNDS) == R10
  {
    DoubleRound1();
    assert Rounds(R0, 1) == R1;
    DoubleRound2();
    assert Rounds(R0, 2) == R2;
    DoubleRound3();
    assert Rounds(R0, 3) == R3;
    DoubleRound4();
    assert Rounds(R0, 4) == R4;
    DoubleRound5();
    assert Rounds(R0, 5) == R5;
    DoubleRound6();
    assert Rounds(R0, 6) == R6;
    DoubleRound7();
    assert Rounds(R0, 7) == R7;
    DoubleRound8();
    assert Rounds(R0, 8) == R8;
    DoubleRound9();
    assert Rounds(R0, 9) == R9;
    DoubleRound10();
    assert Rounds(R0, 10) == R10;
  }

  /** Adding the initial state back to the last round's output, word by word. */
  lemma ZeroAddBack()
    ensures AddWords(R10, R0) == ZERO_BLOCK
  {
    forall i | 0 <= i < 16
      ensures AddWords(R10, R0)[i] == ZERO_BLOCK[i]
    {
      // one case per word, so that each sum is computed on constants
      if i == 0 {
      } else if i == 1 {
      } else if i == 2 {
      } else if i == 3 {
      } else if i == 4 {
      } else if i == 5 {
      } else if i == 6 {
      } else if i == 7 {
      } else if i == 8 {
      } else if i == 9 {
      } else if i == 10 {
      } else if i == 11 {
      } else if i == 12 {
      } else if i == 13 {
      } else if i == 14 {
      } else {
      }
    }
  }

  /** The block function on the zero state gives the words of the vector. */
  lemma ZeroBlock()
    ensures Block(R0) == ZERO_BLOCK
  {
    ZeroRounds();
    ZeroAddBack();
  }

  // Each row of the block, serialised, is one line of the keystream.

  lemma BlockRow0()
    ensures WordsToBytes([0xADE0B876, 0x903DF1A0, 0xE56A5D40, 0x28BD8653]) == [0x76, 0xB8, 0xE0, 0xAD, 0xA0, 0xF1, 0x3D, 0x90, 0x40, 0x5D, 0x6A, 0xE5, 0x53, 0x86, 0xBD, 0x28]
  {
  }

  lemma BlockRow1()
    ensures WordsToBytes([0xB819D2BD, 0x1AED8DA0, 0xCCEF36A8, 0xC70D778B]) == [0xBD, 0xD2, 0x19, 0xB8, 0xA0, 0x8D, 0xED, 0x1A, 0xA8, 0x36, 0xEF, 0xCC, 0x8B, 0x77, 0x0D, 0xC7]
  {
  }

  lemma BlockRow2()
    ensures WordsToBytes([0x7C5941DA, 0x8D485751, 0x3FE02477, 0x374AD8B8]) == [0xDA, 0x41, 0x59, 0x7C, 0x51, 0x57, 0x48, 0x8D, 0x77, 0x24, 0xE0, 0x3F, 0xB8, 0xD8, 0x4A, 0x37]
  {
  }

  lemma BlockRow3()
    ensures WordsToBytes([0xF4B8436A, 0x1CA11815, 0x69B687C3, 0x8665EEB2]) == [0x6A, 0x43, 0xB8, 0xF4, 0x15, 0x18, 0xA1, 0x1C, 0xC3, 0x87, 0xB6, 0x69, 0xB2, 0xEE, 0x65, 0x86]
  {
  }

  /** The vector's words, serialised little-endian, are its 64 bytes. */
  lemma ZeroBlockBytes()
    ensures WordsToBytes(ZERO_BLOCK) == ZERO_KEYSTREAM
  {
    BlockRow0();
    BlockRow1();
    BlockRow2();
    BlockRow3();
    var w0, w1, w2, w3 := [0xADE0B876, 0x903DF1A0, 0xE56A5D40, 0x28BD8653],
                          [0xB819D2BD, 0x1AED8DA0, 0xCCEF36A8, 0xC70D778B],
                          [0x7C5941DA, 0x8D485751, 0x3FE02477, 0x374AD8B8],
                          [0xF4B8436A, 0x1CA11815, 0x69B687C3, 0x8665EEB2];
    WordsToBytesAppend(w0 + w1 + w2, w3);
    WordsToBytesAppend(w0 + w1, w2);
    WordsToBytesAppend(w0, w1);
  }

  /** The keystream block on the zero state is the vector's 64 bytes. */
  lemma ZeroKeystreamBlock()
    ensures KeystreamBlock(R0) == ZERO_KEYSTREAM
  {
    ZeroBlock();
    ZeroBlockBytes();
  }

  /** Key setup with 32 zero bytes and nonce setup with 8 zero bytes, from
      any earlier state, give the vector's initial state and so its keystream. */
  lemma ZeroKeyNonceKeystream(s: seq<bv32>)
    requires |s| == 16
    ensures KeystreamBlock(IvSetupSpec(KeySetupSpec(s, seq(KEY_SIZE, _ => 0)), seq(IV_SIZE, _ => 0))) == ZERO_KEYSTREAM
  {
    var k: seq<bv8> := seq(KEY_SIZE, _ => 0);
    var iv: seq<bv8> := seq(IV_SIZE, _ => 0);
    KeySetupLayout(s, k);
    assert BytesToWords(k) == [0, 0, 0, 0, 0, 0, 0, 0];
    var ks := KeySetupSpec(s, k);
    IvSetupLayout(ks, iv);
    assert IvSetupSpec(ks, iv) == R0;
    ZeroKeystreamBlock();
  }
}
